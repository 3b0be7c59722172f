/**
 * The notification fan-out verification harness of the entity controller
 * tests: after a controller call has created, updated or deleted an entity,
 * its scenarios check which of the four notification channels were invoked,
 * how often and with which arguments, and then clear the recorded history.
 *
 * The two spied services are the tbClusterService (rule engine, edge and
 * broadcast channels) and the auditLogService (audit channel); each is a
 * recorded call log of `NotifyFixture`.
 */
module NotifyEntity {
  import opened Wrappers
  import opened RecordedCalls

  // ---------------------------------------------------------------------------
  // Entity types and the synthetic "null" entity id
  // ---------------------------------------------------------------------------

  /** The uuid that stands for "no entity" (`ModelConstants.NULL_UUID`). */
  const NULL_UUID: Uuid := Uuid("13814000-1dd2-11b2-8080-808080808080")

  /** `EntityType.name()`. */
  function Name(t: EntityType): string {
    match t
    case TENANT => "TENANT"
    case CUSTOMER => "CUSTOMER"
    case USER => "USER"
    case DASHBOARD => "DASHBOARD"
    case ASSET => "ASSET"
    case DEVICE => "DEVICE"
    case ALARM => "ALARM"
    case RULE_CHAIN => "RULE_CHAIN"
    case RULE_NODE => "RULE_NODE"
    case ENTITY_VIEW => "ENTITY_VIEW"
    case WIDGETS_BUNDLE => "WIDGETS_BUNDLE"
    case WIDGET_TYPE => "WIDGET_TYPE"
    case TENANT_PROFILE => "TENANT_PROFILE"
    case DEVICE_PROFILE => "DEVICE_PROFILE"
    case API_USAGE_STATE => "API_USAGE_STATE"
    case TB_RESOURCE => "TB_RESOURCE"
    case OTA_PACKAGE => "OTA_PACKAGE"
    case EDGE => "EDGE"
    case RPC => "RPC"
    case QUEUE => "QUEUE"
  }

  /** `EntityType.valueOf(s)`: the constant named `s`, or `None` where Java throws. */
  function ValueOf(s: string): (r: Option<EntityType>)
    ensures r.Some? ==> Name(r.value) == s
  {
    match s
    case "TENANT" => Some(TENANT)
    case "CUSTOMER" => Some(CUSTOMER)
    case "USER" => Some(USER)
    case "DASHBOARD" => Some(DASHBOARD)
    case "ASSET" => Some(ASSET)
    case "DEVICE" => Some(DEVICE)
    case "ALARM" => Some(ALARM)
    case "RULE_CHAIN" => Some(RULE_CHAIN)
    case "RULE_NODE" => Some(RULE_NODE)
    case "ENTITY_VIEW" => Some(ENTITY_VIEW)
    case "WIDGETS_BUNDLE" => Some(WIDGETS_BUNDLE)
    case "WIDGET_TYPE" => Some(WIDGET_TYPE)
    case "TENANT_PROFILE" => Some(TENANT_PROFILE)
    case "DEVICE_PROFILE" => Some(DEVICE_PROFILE)
    case "API_USAGE_STATE" => Some(API_USAGE_STATE)
    case "TB_RESOURCE" => Some(TB_RESOURCE)
    case "OTA_PACKAGE" => Some(OTA_PACKAGE)
    case "EDGE" => Some(EDGE)
    case "RPC" => Some(RPC)
    case "QUEUE" => Some(QUEUE)
    case _ => None
  }

  /** `valueOf` inverts `name()`. */
  lemma ValueOfName(t: EntityType)
    ensures ValueOf(Name(t)) == Some(t)
  {
    match t
    case TENANT =>
    case CUSTOMER =>
    case USER =>
    case DASHBOARD =>
    case ASSET =>
    case DEVICE =>
    case ALARM =>
    case RULE_CHAIN =>
    case RULE_NODE =>
    case ENTITY_VIEW =>
    case WIDGETS_BUNDLE =>
    case WIDGET_TYPE =>
    case TENANT_PROFILE =>
    case DEVICE_PROFILE =>
    case API_USAGE_STATE =>
    case TB_RESOURCE =>
    case OTA_PACKAGE =>
    case EDGE =>
    case RPC =>
    case QUEUE =>
  }

  /** `valueOf` fails exactly on the strings that are no constant's name. */
  lemma ValueOfFails(s: string)
    ensures ValueOf(s).None? <==> forall t :: Name(t) != s
  {
    forall t | Name(t) == s ensures ValueOf(s).Some? { ValueOfName(t); }
  }

  /** `s.lastIndexOf(c)`: the last position of `c` in `s`, or -1. */
  function LastIndexOf(s: string, c: char): (r: int)
    ensures -1 <= r < |s|
    ensures r >= 0 ==> s[r] == c
    ensures forall k :: r < k < |s| ==> s[k] != c
  {
    if s == [] then -1
    else if s[|s| - 1] == c then |s| - 1
    else LastIndexOf(s[..|s| - 1], c)
  }

  /** `toUpperCase(Locale.ENGLISH)` on the ASCII letters; every other character is kept. */
  function ToUpperCase(s: string): string {
    seq(|s|, i requires 0 <= i < |s| => if 'a' <= s[i] <= 'z' then (s[i] as int - 32) as char else s[i])
  }

  /** `entity.getClass().toString()`: "class " followed by the qualified class name. */
  function ClassToString(className: string): string {
    "class " + className
  }

  /** The part of the class string after its last '.', upper-cased: the name looked up in `EntityType`. */
  function KindName(className: string): string {
    var s := ClassToString(className);
    ToUpperCase(s[LastIndexOf(s, '.') + 1..])
  }

  /**
   * `createEntityId_NULL_UUID(entity)`: the id of the entity's kind with the
   * null uuid; it fails (Java's `valueOf` throws) when the upper-cased simple
   * class name is no entity type.
   */
  function CreateEntityIdNullUuid(entity: Entity): (r: Result<EntityId>)
    ensures r.Ok? <==> exists t :: Name(t) == KindName(entity.className)
    ensures r.Ok? ==> r.value.uuid == NULL_UUID && Name(r.value.kind) == KindName(entity.className)
    ensures r.Err? ==> r.reason == KindName(entity.className)
  {
    var name := KindName(entity.className);
    var t := ValueOf(name);
    ValueOfFails(name);
    if t.Some? then Ok(EntityId(t.value, NULL_UUID)) else Err(name)
  }

  lemma {:induction false} LastDotOfQualified(prefix: string, simple: string)
    requires '.' !in simple
    ensures LastIndexOf(prefix + "." + simple, '.') == |prefix|
  {
    if simple != [] {
      var init := simple[..|simple| - 1];
      assert (prefix + "." + simple)[..|prefix + "." + simple| - 1] == prefix + "." + init;
      assert simple[|simple| - 1] in simple;
      LastDotOfQualified(prefix, init);
    }
  }

  /** For a class `pkg.Simple`, the name looked up is the upper-cased simple name. */
  lemma KindNameOfQualified(pkg: string, simple: string)
    requires '.' !in simple
    ensures KindName(pkg + "." + simple) == ToUpperCase(simple)
  {
    var s := ClassToString(pkg + "." + simple);
    assert s == ("class " + pkg) + "." + simple;
    LastDotOfQualified("class " + pkg, simple);
    assert s[|"class " + pkg| + 1..] == simple;
  }

  /** An entity of class `pkg.Simple` whose upper-cased simple name names `t` gets the null id of kind `t`. */
  lemma SyntheticIdOfQualifiedClass(pkg: string, simple: string, state: string, t: EntityType)
    requires '.' !in simple && ToUpperCase(simple) == Name(t)
    ensures CreateEntityIdNullUuid(Entity(pkg + "." + simple, state)) == Ok(EntityId(t, NULL_UUID))
  {
    KindNameOfQualified(pkg, simple);
    ValueOfName(t);
  }

  /** Ids are keyed only on the class: entities of one class get the same id, whatever their state. */
  lemma SyntheticIdKeyedOnClass(e1: Entity, e2: Entity)
    requires e1.className == e2.className
    ensures CreateEntityIdNullUuid(e1) == CreateEntityIdNullUuid(e2)
  {
  }

  /** Entities whose classes name different kinds get different ids; equal ids mean the same kind name. */
  lemma SyntheticIdInjective(e1: Entity, e2: Entity)
    requires CreateEntityIdNullUuid(e1).Ok? && CreateEntityIdNullUuid(e2).Ok?
    ensures CreateEntityIdNullUuid(e1) == CreateEntityIdNullUuid(e2) <==> KindName(e1.className) == KindName(e2.className)
  {
    var t1, t2 := CreateEntityIdNullUuid(e1).value.kind, CreateEntityIdNullUuid(e2).value.kind;
    ValueOfName(t1);
    ValueOfName(t2);
  }

  /** A device, created and then deleted, is represented by (DEVICE, NULL_UUID). */
  lemma DeviceSyntheticId(state: string)
    ensures CreateEntityIdNullUuid(Entity("org.thingsboard.server.common.data.Device", state)) == Ok(EntityId(DEVICE, NULL_UUID))
  {
    assert "org.thingsboard.server.common.data.Device" == "org.thingsboard.server.common.data" + "." + "Device";
    SyntheticIdOfQualifiedClass("org.thingsboard.server.common.data", "Device", state, DEVICE);
  }

  /** A rule chain has no synthetic id: "RULECHAIN" is not the constant RULE_CHAIN. */
  lemma RuleChainHasNoSyntheticId(pkg: string, state: string)
    ensures CreateEntityIdNullUuid(Entity(pkg + "." + "RuleChain", state)).Err?
  {
    KindNameOfQualified(pkg, "RuleChain");
    UpperCaseRuleChain();
    assert ValueOf("RULECHAIN") == None;
  }

  lemma UpperCaseRuleChain()
    ensures ToUpperCase("RuleChain") == "RULECHAIN"
  {
    var upper := ToUpperCase("RuleChain");
    assert |upper| == 9;
    forall i | 0 <= i < 9 ensures upper[i] == "RULECHAIN"[i] { }
  }

  // ---------------------------------------------------------------------------
  // Parameters taken from the additional info
  // ---------------------------------------------------------------------------

  /**
   * `extractParameter(clazz, index, additionalInfo)`: the element at `index`
   * when the array exists, is long enough and that element is a `cls`;
   * otherwise null.  A negative index passes the length test and makes the
   * array access throw.
   */
  function ExtractParameter(cls: ClassTag, index: int, additionalInfo: Option<seq<Value>>): (r: Result<Value>)
    ensures r.Err? <==> additionalInfo.Some? && index < 0
    ensures r.Ok? && r.value != Null <==>
      additionalInfo.Some? && 0 <= index < |additionalInfo.value| && IsInstance(additionalInfo.value[index], cls)
    ensures r.Ok? && r.value != Null ==> r.value == additionalInfo.value[index]
  {
    if additionalInfo.Some? && |additionalInfo.value| > index then
      if index < 0 then Err("ArrayIndexOutOfBoundsException")
      else if IsInstance(additionalInfo.value[index], cls) then Ok(additionalInfo.value[index])
      else Ok(Null)
    else Ok(Null)
  }

  /** `extractParameter(String.class, 0, additionalInfo)`: the first element if it is a string, else null. */
  function AdditionalInfoStr(additionalInfo: seq<Value>): (r: Value)
    ensures r == if |additionalInfo| > 0 && additionalInfo[0].Str? then additionalInfo[0] else Null
  {
    match ExtractParameter(StringClass, 0, Some(additionalInfo))
    case Ok(v) => v
    case Err(_) => Null
  }

  /** The edge event type argument: the mapped type, or null where the mapping gives none. */
  function EdgeTypeValue(t: Option<EdgeEventType>): Value {
    match t
    case Some(e) => EdgeEvent(e)
    case None => Null
  }

  /** Java's `s.contains(sub)`. */
  predicate Contains(s: string, sub: string) {
    exists k :: 0 <= k <= |s| && sub <= s[k..]
  }

  // ---------------------------------------------------------------------------
  // Per-channel checks: read-only predicates over the recorded histories
  // ---------------------------------------------------------------------------

  /**
   * `testNotificationMsgToEdgeServiceNever(entityId)`: no recorded edge
   * notification carries an id of entityId's class, whatever its other
   * arguments and its uuid.
   */
  predicate NotificationMsgToEdgeServiceNever(cluster: seq<Call>, entityId: EntityId)
    ensures NotificationMsgToEdgeServiceNever(cluster, entityId) <==>
      forall i :: 0 <= i < |cluster| ==>
        !(cluster[i].op == SendNotificationMsgToEdgeService && |cluster[i].args| == 6 &&
          IsInstance(cluster[i].args[2], IdClass(entityId.kind)))
  {
    var ms := [Any, Any, OfKind(IdClass(entityId.kind)), Any, Any, Any];
    assert forall c: Call :: CallMatches(c, SendNotificationMsgToEdgeService, ms) <==>
      c.op == SendNotificationMsgToEdgeService && |c.args| == 6 && IsInstance(c.args[2], IdClass(entityId.kind)) by {
      forall c: Call | c.op == SendNotificationMsgToEdgeService && |c.args| == 6 && IsInstance(c.args[2], IdClass(entityId.kind))
        ensures CallMatches(c, SendNotificationMsgToEdgeService, ms)
      {
        assert forall i :: 0 <= i < 6 ==> Matches(ms[i], c.args[i]);
      }
    }
    Verify(cluster, SendNotificationMsgToEdgeService, 0, ms)
  }

  /**
   * `testLogEntityActionNever(entityId, entity)`: no recorded 8-argument audit
   * call carries an id of entityId's class as originator together with an
   * entity of entity's class.
   */
  predicate LogEntityActionNever(audit: seq<Call>, entityId: EntityId, entity: Entity)
    ensures LogEntityActionNever(audit, entityId, entity) <==>
      forall i :: 0 <= i < |audit| ==>
        !(audit[i].op == LogEntityAction && |audit[i].args| == 8 &&
          IsInstance(audit[i].args[4], IdClass(entityId.kind)) &&
          IsInstance(audit[i].args[5], EntityClass(entity.className)))
  {
    var ms := [Any, Any, Any, Any, OfKind(IdClass(entityId.kind)), OfKind(EntityClass(entity.className)), Any, Any];
    assert forall c: Call :: CallMatches(c, LogEntityAction, ms) <==>
      c.op == LogEntityAction && |c.args| == 8 && IsInstance(c.args[4], IdClass(entityId.kind)) &&
      IsInstance(c.args[5], EntityClass(entity.className)) by {
      forall c: Call | c.op == LogEntityAction && |c.args| == 8 && IsInstance(c.args[4], IdClass(entityId.kind)) &&
          IsInstance(c.args[5], EntityClass(entity.className))
        ensures CallMatches(c, LogEntityAction, ms)
      {
        assert forall i :: 0 <= i < 8 ==> Matches(ms[i], c.args[i]);
      }
    }
    Verify(audit, LogEntityAction, 0, ms)
  }

  /** `testPushMsgToRuleEngineNever(entityId)`: no recorded rule-engine message has an originator of entityId's class. */
  predicate PushMsgToRuleEngineNever(cluster: seq<Call>, entityId: EntityId)
    ensures PushMsgToRuleEngineNever(cluster, entityId) <==>
      forall i :: 0 <= i < |cluster| ==>
        !(cluster[i].op == PushMsgToRuleEngine && |cluster[i].args| == 4 &&
          IsInstance(cluster[i].args[1], IdClass(entityId.kind)))
  {
    var ms := [Any, OfKind(IdClass(entityId.kind)), Any, Any];
    assert forall c: Call :: CallMatches(c, PushMsgToRuleEngine, ms) <==>
      c.op == PushMsgToRuleEngine && |c.args| == 4 && IsInstance(c.args[1], IdClass(entityId.kind)) by {
      forall c: Call | c.op == PushMsgToRuleEngine && |c.args| == 4 && IsInstance(c.args[1], IdClass(entityId.kind))
        ensures CallMatches(c, PushMsgToRuleEngine, ms)
      {
        assert forall i :: 0 <= i < 4 ==> Matches(ms[i], c.args[i]);
      }
    }
    Verify(cluster, PushMsgToRuleEngine, 0, ms)
  }

  /** The audit call `testLogEntityActionOneTime` expects: 8 arguments, or 9 with the additional-info string. */
  function ExpectedAuditArgs(entity: Entity, originatorId: EntityId, tenantId: Value, customerId: Value,
                             userId: Value, userName: Value, actionType: ActionType, additionalInfo: seq<Value>): seq<Value>
  {
    [tenantId, customerId, userId, userName, Id(originatorId), Named(entity), Action(actionType), Null] +
    (if |additionalInfo| == 0 then [] else [AdditionalInfoStr(additionalInfo)])
  }

  /**
   * `testLogEntityActionOneTime`: the expected audit call, with a null error,
   * was recorded exactly once.  Without additional info it has 8 arguments;
   * otherwise a 9th equal to the first additional-info string (or null).
   */
  predicate LogEntityActionOneTime(audit: seq<Call>, entity: Entity, originatorId: EntityId, tenantId: Value,
                                   customerId: Value, userId: Value, userName: Value, actionType: ActionType,
                                   additionalInfo: seq<Value>)
    ensures LogEntityActionOneTime(audit, entity, originatorId, tenantId, customerId, userId, userName, actionType, additionalInfo) <==>
      multiset(audit)[Call(LogEntityAction, ExpectedAuditArgs(entity, originatorId, tenantId, customerId, userId, userName, actionType, additionalInfo))] == 1
  {
    var base := [Eq(tenantId), Eq(customerId), Eq(userId), Eq(userName), Eq(Id(originatorId)), Eq(Named(entity)), Eq(Action(actionType)), IsNull];
    var ms := if |additionalInfo| == 0 then base else base + [Eq(AdditionalInfoStr(additionalInfo))];
    CountPinned(audit, LogEntityAction, ms,
                ExpectedAuditArgs(entity, originatorId, tenantId, customerId, userId, userName, actionType, additionalInfo));
    Verify(audit, LogEntityAction, 1, ms)
  }

  /** The matchers of `testLogEntityActionManyTime`: originator and entity are matched by class only. */
  function ManyTimeAuditMatchers(entity: Entity, originatorId: EntityId, tenantId: Value, customerId: Value,
                                 userId: Value, userName: Value, actionType: ActionType,
                                 additionalInfo: seq<Value>): seq<Matcher>
  {
    var base := [Eq(tenantId), Eq(customerId), Eq(userId), Eq(userName), OfKind(IdClass(originatorId.kind)),
                 OfKind(EntityClass(entity.className)), Eq(Action(actionType)), IsNull];
    if |additionalInfo| == 0 then base else base + [Eq(AdditionalInfoStr(additionalInfo))]
  }

  /**
   * An audit call as `testLogEntityActionManyTime` expects it: the given
   * tenant, customer, user and action, a null error, an originator and an
   * entity of the expected classes, and the additional info if any.
   */
  predicate ManyTimeAuditCall(c: Call, entity: Entity, originatorId: EntityId, tenantId: Value, customerId: Value,
                              userId: Value, userName: Value, actionType: ActionType, additionalInfo: seq<Value>)
  {
    c.op == LogEntityAction && |c.args| == (if |additionalInfo| == 0 then 8 else 9) &&
    c.args[0] == tenantId && c.args[1] == customerId && c.args[2] == userId && c.args[3] == userName &&
    IsInstance(c.args[4], IdClass(originatorId.kind)) && IsInstance(c.args[5], EntityClass(entity.className)) &&
    c.args[6] == Action(actionType) && c.args[7] == Null &&
    (|additionalInfo| > 0 ==> c.args[8] == AdditionalInfoStr(additionalInfo))
  }

  /** The many-time matchers accept exactly the calls of that shape. */
  lemma ManyTimeAuditMatchersAccept(c: Call, entity: Entity, originatorId: EntityId, tenantId: Value, customerId: Value,
                                    userId: Value, userName: Value, actionType: ActionType, additionalInfo: seq<Value>)
    ensures CallMatches(c, LogEntityAction, ManyTimeAuditMatchers(entity, originatorId, tenantId, customerId, userId, userName, actionType, additionalInfo))
        <==> ManyTimeAuditCall(c, entity, originatorId, tenantId, customerId, userId, userName, actionType, additionalInfo)
  {
    var ms := ManyTimeAuditMatchers(entity, originatorId, tenantId, customerId, userId, userName, actionType, additionalInfo);
    if CallMatches(c, LogEntityAction, ms) {
      assert forall k :: 0 <= k < |ms| ==> Matches(ms[k], c.args[k]);
    }
  }

  /** The many-time audit shape as a test on calls. */
  function ManyTimeAuditShape(entity: Entity, originatorId: EntityId, tenantId: Value, customerId: Value,
                              userId: Value, userName: Value, actionType: ActionType, additionalInfo: seq<Value>): Call -> bool
  {
    c => ManyTimeAuditCall(c, entity, originatorId, tenantId, customerId, userId, userName, actionType, additionalInfo)
  }

  /** The many-time audit matchers count exactly the recorded calls of the many-time shape. */
  lemma ManyTimeAuditCount(audit: seq<Call>, entity: Entity, originatorId: EntityId, tenantId: Value, customerId: Value,
                           userId: Value, userName: Value, actionType: ActionType, additionalInfo: seq<Value>)
    ensures Count(audit, LogEntityAction, ManyTimeAuditMatchers(entity, originatorId, tenantId, customerId, userId, userName, actionType, additionalInfo))
         == CountWhere(audit, ManyTimeAuditShape(entity, originatorId, tenantId, customerId, userId, userName, actionType, additionalInfo))
  {
    var ms := ManyTimeAuditMatchers(entity, originatorId, tenantId, customerId, userId, userName, actionType, additionalInfo);
    var p := ManyTimeAuditShape(entity, originatorId, tenantId, customerId, userId, userName, actionType, additionalInfo);
    forall c ensures CallMatches(c, LogEntityAction, ms) <==> p(c) {
      ManyTimeAuditMatchersAccept(c, entity, originatorId, tenantId, customerId, userId, userName, actionType, additionalInfo);
    }
    CountIsCountWhere(audit, LogEntityAction, ms, p);
  }

  /** `testLogEntityActionManyTime`: exactly `cntTime` audit calls of the many-time shape. */
  predicate LogEntityActionManyTime(audit: seq<Call>, entity: Entity, originatorId: EntityId, tenantId: Value,
                                    customerId: Value, userId: Value, userName: Value, actionType: ActionType,
                                    cntTime: int, additionalInfo: seq<Value>)
    ensures LogEntityActionManyTime(audit, entity, originatorId, tenantId, customerId, userId, userName, actionType, cntTime, additionalInfo)
      <==> CountWhere(audit, ManyTimeAuditShape(entity, originatorId, tenantId, customerId, userId, userName, actionType, additionalInfo)) == cntTime
    ensures LogEntityActionManyTime(audit, entity, originatorId, tenantId, customerId, userId, userName, actionType, cntTime, additionalInfo)
      ==> 0 <= cntTime <= |audit|
    ensures LogEntityActionManyTime(audit, entity, originatorId, tenantId, customerId, userId, userName, actionType, cntTime, additionalInfo) && cntTime > 0
      ==> exists i :: 0 <= i < |audit| &&
            ManyTimeAuditCall(audit[i], entity, originatorId, tenantId, customerId, userId, userName, actionType, additionalInfo)
  {
    var ms := ManyTimeAuditMatchers(entity, originatorId, tenantId, customerId, userId, userName, actionType, additionalInfo);
    ManyTimeAuditCount(audit, entity, originatorId, tenantId, customerId, userId, userName, actionType, additionalInfo);
    var ok := Verify(audit, LogEntityAction, cntTime, ms);
    if ok && cntTime > 0 then
      var i :| 0 <= i < |audit| && CallMatches(audit[i], LogEntityAction, ms);
      ManyTimeAuditMatchersAccept(audit[i], entity, originatorId, tenantId, customerId, userId, userName, actionType, additionalInfo);
      ok
    else ok
  }

  /** The matchers of `testPushMsgToRuleEngineTime`: the originator is exact only for a single call. */
  function RuleEngineMatchers(originatorId: EntityId, tenantId: Value, cntTime: int): seq<Matcher> {
    if cntTime == 1 then [Eq(tenantId), Eq(Id(originatorId)), OfKind(TbMsgClass), IsNull]
    else [Eq(tenantId), OfKind(IdClass(originatorId.kind)), OfKind(TbMsgClass), IsNull]
  }

  /**
   * A rule-engine message as `testPushMsgToRuleEngineTime` expects it: for
   * the tenant, with a null error, and an originator that is exactly
   * `originatorId` for one call and otherwise only of its class.
   */
  predicate RuleEngineCall(c: Call, originatorId: EntityId, tenantId: Value, cntTime: int) {
    c.op == PushMsgToRuleEngine && |c.args| == 4 && c.args[0] == tenantId &&
    (if cntTime == 1 then c.args[1] == Id(originatorId) else IsInstance(c.args[1], IdClass(originatorId.kind))) &&
    c.args[2].Msg? && c.args[3] == Null
  }

  /** The rule-engine matchers accept exactly the calls of that shape. */
  lemma RuleEngineMatchersAccept(c: Call, originatorId: EntityId, tenantId: Value, cntTime: int)
    ensures CallMatches(c, PushMsgToRuleEngine, RuleEngineMatchers(originatorId, tenantId, cntTime))
        <==> RuleEngineCall(c, originatorId, tenantId, cntTime)
  {
    var ms := RuleEngineMatchers(originatorId, tenantId, cntTime);
    if CallMatches(c, PushMsgToRuleEngine, ms) {
      assert forall k :: 0 <= k < 4 ==> Matches(ms[k], c.args[k]);
    }
    if RuleEngineCall(c, originatorId, tenantId, cntTime) {
      assert forall k :: 0 <= k < 4 ==> Matches(ms[k], c.args[k]);
    }
  }

  /** The rule-engine shape as a test on calls. */
  function RuleEngineShape(originatorId: EntityId, tenantId: Value, cntTime: int): Call -> bool {
    c => RuleEngineCall(c, originatorId, tenantId, cntTime)
  }

  /** The rule-engine matchers count exactly the recorded messages of the rule-engine shape. */
  lemma RuleEngineCount(cluster: seq<Call>, originatorId: EntityId, tenantId: Value, cntTime: int)
    ensures Count(cluster, PushMsgToRuleEngine, RuleEngineMatchers(originatorId, tenantId, cntTime))
         == CountWhere(cluster, RuleEngineShape(originatorId, tenantId, cntTime))
  {
    var ms := RuleEngineMatchers(originatorId, tenantId, cntTime);
    var p := RuleEngineShape(originatorId, tenantId, cntTime);
    forall c ensures CallMatches(c, PushMsgToRuleEngine, ms) <==> p(c) {
      RuleEngineMatchersAccept(c, originatorId, tenantId, cntTime);
    }
    CountIsCountWhere(cluster, PushMsgToRuleEngine, ms, p);
  }

  /**
   * `testPushMsgToRuleEngineTime`: exactly `cntTime` rule-engine messages of
   * that shape.
   */
  predicate PushMsgToRuleEngineTime(cluster: seq<Call>, originatorId: EntityId, tenantId: Value, cntTime: int)
    ensures PushMsgToRuleEngineTime(cluster, originatorId, tenantId, cntTime)
      <==> CountWhere(cluster, RuleEngineShape(originatorId, tenantId, cntTime)) == cntTime
    ensures PushMsgToRuleEngineTime(cluster, originatorId, tenantId, cntTime) ==> 0 <= cntTime <= |cluster|
    ensures PushMsgToRuleEngineTime(cluster, originatorId, tenantId, cntTime) && cntTime > 0
      ==> exists i :: 0 <= i < |cluster| && RuleEngineCall(cluster[i], originatorId, tenantId, cntTime)
  {
    var ms := RuleEngineMatchers(originatorId, tenantId, cntTime);
    RuleEngineCount(cluster, originatorId, tenantId, cntTime);
    var ok := Verify(cluster, PushMsgToRuleEngine, cntTime, ms);
    if ok && cntTime > 0 then
      var i :| 0 <= i < |cluster| && CallMatches(cluster[i], PushMsgToRuleEngine, ms);
      RuleEngineMatchersAccept(cluster[i], originatorId, tenantId, cntTime);
      ok
    else ok
  }

  /** The edge notification `testSendNotificationMsgToEdgeServiceTime` expects. */
  function ExpectedEdgeArgs(edgeTypeByActionType: ActionType -> Option<EdgeEventType>, entityId: EntityId,
                            tenantId: Value, actionType: ActionType): seq<Value>
  {
    [tenantId, Null, Id(entityId), Null, Null, EdgeTypeValue(edgeTypeByActionType(actionType))]
  }

  /**
   * `testSendNotificationMsgToEdgeServiceTime`: the edge notification for the
   * tenant and the exact entity id, with null edge id, action and body and the
   * edge event type mapped from the action, was recorded exactly `cntTime` times.
   */
  predicate SendNotificationMsgToEdgeServiceTime(cluster: seq<Call>, edgeTypeByActionType: ActionType -> Option<EdgeEventType>,
                                                 entityId: EntityId, tenantId: Value, actionType: ActionType, cntTime: int)
    ensures SendNotificationMsgToEdgeServiceTime(cluster, edgeTypeByActionType, entityId, tenantId, actionType, cntTime) <==>
      multiset(cluster)[Call(SendNotificationMsgToEdgeService, ExpectedEdgeArgs(edgeTypeByActionType, entityId, tenantId, actionType))] == cntTime
  {
    var ms := [Eq(tenantId), IsNull, Eq(Id(entityId)), IsNull, IsNull, Eq(EdgeTypeValue(edgeTypeByActionType(actionType)))];
    CountPinned(cluster, SendNotificationMsgToEdgeService, ms, ExpectedEdgeArgs(edgeTypeByActionType, entityId, tenantId, actionType));
    Verify(cluster, SendNotificationMsgToEdgeService, cntTime, ms)
  }

  /**
   * A state-change broadcast as `testBroadcastEntityStateChangeEventTime`
   * expects it: for the tenant, with an id of entityId's class and a
   * lifecycle event.
   */
  predicate BroadcastCall(c: Call, entityId: EntityId, tenantId: Value) {
    c.op == BroadcastEntityStateChangeEvent && |c.args| == 3 && c.args[0] == tenantId &&
    IsInstance(c.args[1], IdClass(entityId.kind)) && c.args[2].Lifecycle?
  }

  function BroadcastMatchers(entityId: EntityId, tenantId: Value): seq<Matcher> {
    [Eq(tenantId), OfKind(IdClass(entityId.kind)), OfKind(LifecycleEventClass)]
  }

  /** The broadcast matchers accept exactly the calls of that shape. */
  lemma BroadcastMatchersAccept(c: Call, entityId: EntityId, tenantId: Value)
    ensures CallMatches(c, BroadcastEntityStateChangeEvent, BroadcastMatchers(entityId, tenantId)) <==> BroadcastCall(c, entityId, tenantId)
  {
    var ms := BroadcastMatchers(entityId, tenantId);
    if CallMatches(c, BroadcastEntityStateChangeEvent, ms) {
      assert Matches(ms[2], c.args[2]);
    }
    if BroadcastCall(c, entityId, tenantId) {
      assert forall i :: 0 <= i < 3 ==> Matches(ms[i], c.args[i]);
    }
  }

  /** The broadcast shape as a test on calls. */
  function BroadcastShape(entityId: EntityId, tenantId: Value): Call -> bool {
    c => BroadcastCall(c, entityId, tenantId)
  }

  /** The broadcast matchers count exactly the recorded broadcasts of that shape. */
  lemma BroadcastCount(cluster: seq<Call>, entityId: EntityId, tenantId: Value)
    ensures Count(cluster, BroadcastEntityStateChangeEvent, BroadcastMatchers(entityId, tenantId))
         == CountWhere(cluster, BroadcastShape(entityId, tenantId))
  {
    var ms := BroadcastMatchers(entityId, tenantId);
    var p := BroadcastShape(entityId, tenantId);
    forall c ensures CallMatches(c, BroadcastEntityStateChangeEvent, ms) <==> p(c) {
      BroadcastMatchersAccept(c, entityId, tenantId);
    }
    CountIsCountWhere(cluster, BroadcastEntityStateChangeEvent, ms, p);
  }

  /**
   * `testBroadcastEntityStateChangeEventTime`: exactly `cntTime` state-change
   * broadcasts for the tenant with an id of entityId's class and any lifecycle event.
   */
  predicate BroadcastEntityStateChangeEventTime(cluster: seq<Call>, entityId: EntityId, tenantId: Value, cntTime: int)
    ensures BroadcastEntityStateChangeEventTime(cluster, entityId, tenantId, cntTime)
      <==> CountWhere(cluster, BroadcastShape(entityId, tenantId)) == cntTime
    ensures BroadcastEntityStateChangeEventTime(cluster, entityId, tenantId, cntTime) ==> 0 <= cntTime <= |cluster|
    ensures cntTime == 0 ==> (BroadcastEntityStateChangeEventTime(cluster, entityId, tenantId, cntTime) <==>
      forall i :: 0 <= i < |cluster| ==> !BroadcastCall(cluster[i], entityId, tenantId))
  {
    BroadcastCount(cluster, entityId, tenantId);
    Verify(cluster, BroadcastEntityStateChangeEvent, cntTime, BroadcastMatchers(entityId, tenantId))
  }

  /** The error matcher of `testNotifyEntityOneTimeError`; the class is compared only when asked to. */
  function ErrorMatcher(exp: Exception, checkClass: bool): Matcher {
    Pred((v: Value) => v.Error? && Contains(v.error.message, exp.message) && (!checkClass || v.error.className == exp.className))
  }

  /** `Mockito.eq` on each element of an array passed as the vararg tail. */
  function EqEach(xs: seq<Value>): (ms: seq<Matcher>)
    ensures |ms| == |xs| && forall k :: 0 <= k < |xs| ==> ms[k] == Eq(xs[k])
  {
    seq(|xs|, k requires 0 <= k < |xs| => Eq(xs[k]))
  }

  /**
   * The matchers of the audit check in `testNotifyEntityOneTimeError`: with
   * additional info the error's class is not compared and the info follows
   * element by element; without, the class is compared.
   */
  function ErrorAuditMatchers(entity: Entity, entityNullId: EntityId, tenantId: Value, userId: Value, userName: Value,
                              actionType: ActionType, exp: Exception, additionalInfo: seq<Value>): seq<Matcher>
  {
    var base := [Eq(tenantId), Eq(Id(EntityId(CUSTOMER, NULL_UUID))), Eq(userId), Eq(userName), Eq(Id(entityNullId)),
                 OfKind(EntityClass(entity.className)), Eq(Action(actionType))];
    if |additionalInfo| > 0 then base + [ErrorMatcher(exp, false)] + EqEach(additionalInfo)
    else base + [ErrorMatcher(exp, true)]
  }

  /**
   * An audit call as the error path expects it: null customer, the entity's
   * null id, an error whose message contains the expected one (and whose
   * class is the expected one when there is no additional info), followed
   * by the additional info as given.
   */
  predicate ErrorAuditCall(c: Call, entity: Entity, entityNullId: EntityId, tenantId: Value, userId: Value,
                           userName: Value, actionType: ActionType, exp: Exception, additionalInfo: seq<Value>)
  {
    c.op == LogEntityAction && |c.args| == 8 + |additionalInfo| &&
    c.args[0] == tenantId && c.args[1] == Id(EntityId(CUSTOMER, NULL_UUID)) &&
    c.args[2] == userId && c.args[3] == userName && c.args[4] == Id(entityNullId) &&
    IsInstance(c.args[5], EntityClass(entity.className)) && c.args[6] == Action(actionType) &&
    c.args[7].Error? && Contains(c.args[7].error.message, exp.message) &&
    (|additionalInfo| == 0 ==> c.args[7].error.className == exp.className) &&
    c.args[8..] == additionalInfo
  }

  /** The error-path matchers accept exactly the calls of that shape. */
  lemma ErrorAuditMatchersAccept(c: Call, entity: Entity, entityNullId: EntityId, tenantId: Value, userId: Value,
                                 userName: Value, actionType: ActionType, exp: Exception, additionalInfo: seq<Value>)
    ensures CallMatches(c, LogEntityAction, ErrorAuditMatchers(entity, entityNullId, tenantId, userId, userName, actionType, exp, additionalInfo))
        <==> ErrorAuditCall(c, entity, entityNullId, tenantId, userId, userName, actionType, exp, additionalInfo)
  {
    if CallMatches(c, LogEntityAction, ErrorAuditMatchers(entity, entityNullId, tenantId, userId, userName, actionType, exp, additionalInfo)) {
      ErrorAuditMatchersSound(c, entity, entityNullId, tenantId, userId, userName, actionType, exp, additionalInfo);
    }
    if ErrorAuditCall(c, entity, entityNullId, tenantId, userId, userName, actionType, exp, additionalInfo) {
      ErrorAuditMatchersComplete(c, entity, entityNullId, tenantId, userId, userName, actionType, exp, additionalInfo);
    }
  }

  lemma ErrorAuditMatchersSound(c: Call, entity: Entity, entityNullId: EntityId, tenantId: Value, userId: Value,
                                userName: Value, actionType: ActionType, exp: Exception, additionalInfo: seq<Value>)
    requires CallMatches(c, LogEntityAction, ErrorAuditMatchers(entity, entityNullId, tenantId, userId, userName, actionType, exp, additionalInfo))
    ensures ErrorAuditCall(c, entity, entityNullId, tenantId, userId, userName, actionType, exp, additionalInfo)
  {
    var ms := ErrorAuditMatchers(entity, entityNullId, tenantId, userId, userName, actionType, exp, additionalInfo);
    assert forall k :: 0 <= k < 8 ==> Matches(ms[k], c.args[k]);
    assert c.args[8..] == additionalInfo by {
      forall k | 0 <= k < |additionalInfo| ensures c.args[8 + k] == additionalInfo[k] {
        assert Matches(ms[8 + k], c.args[8 + k]);
      }
    }
  }

  lemma ErrorAuditMatchersComplete(c: Call, entity: Entity, entityNullId: EntityId, tenantId: Value, userId: Value,
                                   userName: Value, actionType: ActionType, exp: Exception, additionalInfo: seq<Value>)
    requires ErrorAuditCall(c, entity, entityNullId, tenantId, userId, userName, actionType, exp, additionalInfo)
    ensures CallMatches(c, LogEntityAction, ErrorAuditMatchers(entity, entityNullId, tenantId, userId, userName, actionType, exp, additionalInfo))
  {
    var ms := ErrorAuditMatchers(entity, entityNullId, tenantId, userId, userName, actionType, exp, additionalInfo);
    forall k | 8 <= k < |ms| ensures Matches(ms[k], c.args[k]) {
      assert c.args[k] == c.args[8..][k - 8];
    }
    assert forall k :: 0 <= k < 8 ==> Matches(ms[k], c.args[k]);
  }

  /** The error-path audit shape as a test on calls. */
  function ErrorAuditShape(entity: Entity, entityNullId: EntityId, tenantId: Value, userId: Value, userName: Value,
                           actionType: ActionType, exp: Exception, additionalInfo: seq<Value>): Call -> bool
  {
    c => ErrorAuditCall(c, entity, entityNullId, tenantId, userId, userName, actionType, exp, additionalInfo)
  }

  /** The error-path matchers count exactly the recorded audit calls of the error-path shape. */
  lemma ErrorAuditCount(audit: seq<Call>, entity: Entity, entityNullId: EntityId, tenantId: Value, userId: Value,
                        userName: Value, actionType: ActionType, exp: Exception, additionalInfo: seq<Value>)
    ensures Count(audit, LogEntityAction, ErrorAuditMatchers(entity, entityNullId, tenantId, userId, userName, actionType, exp, additionalInfo))
         == CountWhere(audit, ErrorAuditShape(entity, entityNullId, tenantId, userId, userName, actionType, exp, additionalInfo))
  {
    var ms := ErrorAuditMatchers(entity, entityNullId, tenantId, userId, userName, actionType, exp, additionalInfo);
    var p := ErrorAuditShape(entity, entityNullId, tenantId, userId, userName, actionType, exp, additionalInfo);
    forall c ensures CallMatches(c, LogEntityAction, ms) <==> p(c) {
      ErrorAuditMatchersAccept(c, entity, entityNullId, tenantId, userId, userName, actionType, exp, additionalInfo);
    }
    CountIsCountWhere(audit, LogEntityAction, ms, p);
  }

  /**
   * The audit check of `testNotifyEntityOneTimeError`: exactly one audit call
   * of the error-path shape was recorded.
   */
  predicate LogEntityActionOneTimeError(audit: seq<Call>, entity: Entity, entityNullId: EntityId, tenantId: Value,
                                        userId: Value, userName: Value, actionType: ActionType, exp: Exception,
                                        additionalInfo: seq<Value>)
    ensures LogEntityActionOneTimeError(audit, entity, entityNullId, tenantId, userId, userName, actionType, exp, additionalInfo)
      <==> CountWhere(audit, ErrorAuditShape(entity, entityNullId, tenantId, userId, userName, actionType, exp, additionalInfo)) == 1
    ensures LogEntityActionOneTimeError(audit, entity, entityNullId, tenantId, userId, userName, actionType, exp, additionalInfo)
      ==> exists i :: 0 <= i < |audit| &&
            ErrorAuditCall(audit[i], entity, entityNullId, tenantId, userId, userName, actionType, exp, additionalInfo)
  {
    var ms := ErrorAuditMatchers(entity, entityNullId, tenantId, userId, userName, actionType, exp, additionalInfo);
    ErrorAuditCount(audit, entity, entityNullId, tenantId, userId, userName, actionType, exp, additionalInfo);
    var ok := Verify(audit, LogEntityAction, 1, ms);
    if ok then
      var i :| 0 <= i < |audit| && CallMatches(audit[i], LogEntityAction, ms);
      ErrorAuditMatchersAccept(audit[i], entity, entityNullId, tenantId, userId, userName, actionType, exp, additionalInfo);
      ok
    else ok
  }

  // ---------------------------------------------------------------------------
  // How the checks relate
  // ---------------------------------------------------------------------------

  lemma InMultisetAt(log: seq<Call>, c: Call) returns (i: nat)
    requires multiset(log)[c] > 0
    ensures i < |log| && log[i] == c
  {
    assert c in multiset(log);
    assert c in log;
    i :| 0 <= i < |log| && log[i] == c;
  }

  /** An edge notification that passes the one-time check makes the edge "never" check fail for any id of that kind. */
  lemma EdgeOnceRefutesEdgeNever(cluster: seq<Call>, edgeTypeByActionType: ActionType -> Option<EdgeEventType>,
                                 entityId: EntityId, tenantId: Value, actionType: ActionType, otherId: EntityId)
    requires SendNotificationMsgToEdgeServiceTime(cluster, edgeTypeByActionType, entityId, tenantId, actionType, 1)
    requires otherId.kind == entityId.kind
    ensures !NotificationMsgToEdgeServiceNever(cluster, otherId)
  {
    var i := InMultisetAt(cluster, Call(SendNotificationMsgToEdgeService, ExpectedEdgeArgs(edgeTypeByActionType, entityId, tenantId, actionType)));
    assert IsInstance(cluster[i].args[2], IdClass(otherId.kind));
  }

  /**
   * An audit call without additional info that passes the one-time check makes
   * the audit "never" check fail for ids and entities of the same classes.
   */
  lemma AuditOnceRefutesAuditNever(audit: seq<Call>, entity: Entity, originatorId: EntityId, tenantId: Value,
                                   customerId: Value, userId: Value, userName: Value, actionType: ActionType,
                                   otherId: EntityId, otherEntity: Entity)
    requires LogEntityActionOneTime(audit, entity, originatorId, tenantId, customerId, userId, userName, actionType, [])
    requires otherId.kind == originatorId.kind && otherEntity.className == entity.className
    ensures !LogEntityActionNever(audit, otherId, otherEntity)
  {
    var i := InMultisetAt(audit, Call(LogEntityAction, ExpectedAuditArgs(entity, originatorId, tenantId, customerId, userId, userName, actionType, [])));
    assert IsInstance(audit[i].args[4], IdClass(otherId.kind));
  }

  /** A rule-engine message that passes the one-time check makes the rule-engine "never" check fail for its kind. */
  lemma RuleEngineOnceRefutesNever(cluster: seq<Call>, originatorId: EntityId, tenantId: Value, otherId: EntityId)
    requires PushMsgToRuleEngineTime(cluster, originatorId, tenantId, 1)
    requires otherId.kind == originatorId.kind
    ensures !PushMsgToRuleEngineNever(cluster, otherId)
  {
  }

  /**
   * The audit "never" check has eight matchers, so it does not see an audit
   * call that carries additional info, even one for exactly that id and entity.
   */
  lemma NeverIgnoresCallsWithAdditionalInfo(entityId: EntityId, entity: Entity, tenantId: Value, extra: Value)
    ensures LogEntityActionNever([Call(LogEntityAction, [tenantId, Null, Null, Null, Id(entityId), Named(entity), Null, Null, extra])], entityId, entity)
  {
  }

  /** A verification with narrower matchers finds nothing where one with wider matchers found nothing. */
  lemma NarrowerFindsNothing(log: seq<Call>, op: Op, wide: seq<Matcher>, narrow: seq<Matcher>)
    requires |wide| == |narrow|
    requires forall i, v :: 0 <= i < |narrow| && Matches(narrow[i], v) ==> Matches(wide[i], v)
    requires Verify(log, op, 0, wide)
    ensures Verify(log, op, 0, narrow)
  {
    assert forall i :: 0 <= i < |log| ==> !CallMatches(log[i], op, narrow);
  }

  /**
   * Without additional info, the "never" checks for an id imply the many-time
   * checks with count 0 for any originator of the same kind.
   */
  lemma NeverImpliesManyTimeZero(audit: seq<Call>, cluster: seq<Call>, entity: Entity, entityId: EntityId,
                                 originatorId: EntityId, tenantId: Value, customerId: Value, userId: Value,
                                 userName: Value, actionType: ActionType)
    requires LogEntityActionNever(audit, entityId, entity) && PushMsgToRuleEngineNever(cluster, entityId)
    requires originatorId.kind == entityId.kind
    ensures LogEntityActionManyTime(audit, entity, originatorId, tenantId, customerId, userId, userName, actionType, 0, [])
    ensures PushMsgToRuleEngineTime(cluster, originatorId, tenantId, 0)
  {
    NarrowerFindsNothing(audit, LogEntityAction,
      [Any, Any, Any, Any, OfKind(IdClass(entityId.kind)), OfKind(EntityClass(entity.className)), Any, Any],
      ManyTimeAuditMatchers(entity, originatorId, tenantId, customerId, userId, userName, actionType, []));
    NarrowerFindsNothing(cluster, PushMsgToRuleEngine,
      [Any, OfKind(IdClass(entityId.kind)), Any, Any],
      RuleEngineMatchers(originatorId, tenantId, 0));
  }

  /**
   * The rule-engine check compares the originator exactly only for one call:
   * a message from `o1` fails the one-time check for another id `o2` of the
   * same kind, while two such messages pass the two-time check for `o2`.
   */
  lemma RuleEngineExactOnlyForOne(o1: EntityId, o2: EntityId, tenantId: Value)
    requires o1.kind == o2.kind && o1 != o2
    ensures var c := Call(PushMsgToRuleEngine, [tenantId, Id(o1), Msg(""), Null]);
      PushMsgToRuleEngineTime([c], o1, tenantId, 1) &&
      !PushMsgToRuleEngineTime([c], o2, tenantId, 1) &&
      PushMsgToRuleEngineTime([c, c], o2, tenantId, 2)
  {
    var c := Call(PushMsgToRuleEngine, [tenantId, Id(o1), Msg(""), Null]);
    var exact, byKind := RuleEngineMatchers(o1, tenantId, 1), RuleEngineMatchers(o2, tenantId, 2);
    assert forall k :: 0 <= k < 4 ==> Matches(exact[k], c.args[k]);
    assert forall k :: 0 <= k < 4 ==> Matches(byKind[k], c.args[k]);
    assert [c, c][..1] == [c];
    assert !Matches(RuleEngineMatchers(o2, tenantId, 1)[1], c.args[1]);
  }

  /**
   * With a count of one, the many-time scenario compares the rule-engine
   * originator exactly with the synthetic id: a message from a live id of
   * that kind (any uuid other than the null one) fails the check.
   */
  lemma ManyTimeSingleCountRejectsLiveOriginator(k: EntityType, u: Uuid, tenantId: Value)
    requires u != NULL_UUID
    ensures !PushMsgToRuleEngineTime([Call(PushMsgToRuleEngine, [tenantId, Id(EntityId(k, u)), Msg(""), Null])],
                                     EntityId(k, NULL_UUID), tenantId, 1)
  {
    RuleEngineExactOnlyForOne(EntityId(k, u), EntityId(k, NULL_UUID), tenantId);
  }

  /**
   * The error check of `testNotifyEntityOneTimeError` compares the error's
   * class only without additional info: an error of another class with the
   * expected message passes with additional info and fails without.
   */
  lemma ErrorClassCheckedOnlyWithoutAdditionalInfo(entity: Entity, tenantId: Value, userId: Value, userName: Value,
                                                   actionType: ActionType, entityNullId: EntityId, extra: Value)
    ensures var exp := Exception("java.lang.IllegalArgumentException", "msg");
      var logged := Error(Exception("org.thingsboard.server.dao.exception.DataValidationException", "msg"));
      var args := [tenantId, Id(EntityId(CUSTOMER, NULL_UUID)), userId, userName, Id(entityNullId), Named(entity), Action(actionType), logged];
      LogEntityActionOneTimeError([Call(LogEntityAction, args + [extra])], entity, entityNullId, tenantId, userId, userName, actionType, exp, [extra]) &&
      !LogEntityActionOneTimeError([Call(LogEntityAction, args)], entity, entityNullId, tenantId, userId, userName, actionType, exp, [])
  {
    var exp := Exception("java.lang.IllegalArgumentException", "msg");
    var logged := Error(Exception("org.thingsboard.server.dao.exception.DataValidationException", "msg"));
    var args := [tenantId, Id(EntityId(CUSTOMER, NULL_UUID)), userId, userName, Id(entityNullId), Named(entity), Action(actionType), logged];
    assert Contains("msg", "msg") by { assert "msg" <= "msg"[0..]; }
    assert (args + [extra])[8..] == [extra];
    assert ErrorAuditCall(Call(LogEntityAction, args + [extra]), entity, entityNullId, tenantId, userId, userName, actionType, exp, [extra]);
    OneTimeErrorOfSingleCall(Call(LogEntityAction, args + [extra]), entity, entityNullId, tenantId, userId, userName, actionType, exp, [extra]);
    OneTimeErrorOfSingleCall(Call(LogEntityAction, args), entity, entityNullId, tenantId, userId, userName, actionType, exp, []);
  }

  /** On a history of one audit call the error check accepts exactly the calls of the error-path shape. */
  lemma OneTimeErrorOfSingleCall(c: Call, entity: Entity, entityNullId: EntityId, tenantId: Value, userId: Value,
                                 userName: Value, actionType: ActionType, exp: Exception, additionalInfo: seq<Value>)
    ensures LogEntityActionOneTimeError([c], entity, entityNullId, tenantId, userId, userName, actionType, exp, additionalInfo)
        <==> ErrorAuditCall(c, entity, entityNullId, tenantId, userId, userName, actionType, exp, additionalInfo)
  {
    CountSingle(c, LogEntityAction, ErrorAuditMatchers(entity, entityNullId, tenantId, userId, userName, actionType, exp, additionalInfo));
    ErrorAuditMatchersAccept(c, entity, entityNullId, tenantId, userId, userName, actionType, exp, additionalInfo);
  }

  // ---------------------------------------------------------------------------
  // The test fixture: the two spies and the scenarios
  // ---------------------------------------------------------------------------

  /** Why a scenario failed: a check on one channel, or a class name that is no entity type. */
  datatype Outcome = Pass | Mismatch(op: Op) | UnknownEntityType(name: string)

  /**
   * The outcome of running checks one after another, as the scenarios do:
   * the first failing check aborts the scenario (an assertion error in Java)
   * and names its channel.
   */
  function FirstFailure(checks: seq<(Op, bool)>): (r: Outcome)
    ensures r.Pass? || r.Mismatch?
    ensures r.Pass? <==> forall i :: 0 <= i < |checks| ==> checks[i].1
    ensures r.Mismatch? ==> exists i :: 0 <= i < |checks| && checks[i] == (r.op, false) &&
                                     forall j :: 0 <= j < i ==> checks[j].1
  {
    if checks == [] then Pass
    else if !checks[0].1 then Mismatch(checks[0].0)
    else
      var rest := FirstFailure(checks[1..]);
      assert forall i :: 1 <= i < |checks| ==> checks[i] == checks[1..][i - 1];
      rest
  }

  lemma FirstFailureOfThree(a: (Op, bool), b: (Op, bool), c: (Op, bool))
    ensures FirstFailure([a, b, c]) ==
      if !a.1 then Mismatch(a.0) else if !b.1 then Mismatch(b.0) else if !c.1 then Mismatch(c.0) else Pass
  {
    assert [c][1..] == [];
    assert FirstFailure([c]) == if !c.1 then Mismatch(c.0) else Pass;
    assert [b, c][1..] == [c];
    assert FirstFailure([b, c]) == if !b.1 then Mismatch(b.0) else FirstFailure([c]);
    assert [a, b, c][1..] == [b, c];
  }

  lemma FirstFailureOfFour(a: (Op, bool), b: (Op, bool), c: (Op, bool), d: (Op, bool))
    ensures FirstFailure([a, b, c, d]) == if !a.1 then Mismatch(a.0) else FirstFailure([b, c, d])
  {
    assert [a, b, c, d][1..] == [b, c, d];
  }

  /**
   * The state the scenarios share: the recorded calls of the tbClusterService
   * spy and of the auditLogService spy, and the action-to-edge-event mapping
   * of the notification service (defined outside this model, so a parameter).
   */
  class NotifyFixture {
    var cluster: seq<Call>
    var audit: seq<Call>
    const edgeTypeByActionType: ActionType -> Option<EdgeEventType>

    /** The audit spy records only audit calls, the cluster spy only the other three operations. */
    ghost predicate Valid()
      reads this
    {
      (forall i :: 0 <= i < |audit| ==> audit[i].op == LogEntityAction) &&
      (forall i :: 0 <= i < |cluster| ==> cluster[i].op != LogEntityAction)
    }

    constructor (edgeTypeByActionType: ActionType -> Option<EdgeEventType>)
      ensures Valid() && cluster == [] && audit == []
      ensures this.edgeTypeByActionType == edgeTypeByActionType
    {
      this.edgeTypeByActionType := edgeTypeByActionType;
      cluster, audit := [], [];
    }

    /** The audit spy records `logEntityAction`, its varargs appended to the eight fixed arguments. */
    method RecordLogEntityAction(tenantId: Value, customerId: Value, userId: Value, userName: Value,
                                 entityId: Value, entity: Value, actionType: Value, e: Value,
                                 additionalInfo: seq<Value>)
      requires Valid()
      modifies this
      ensures Valid() && cluster == old(cluster)
      ensures audit == old(audit) + [Call(LogEntityAction, [tenantId, customerId, userId, userName, entityId, entity, actionType, e] + additionalInfo)]
    {
      audit := audit + [Call(LogEntityAction, [tenantId, customerId, userId, userName, entityId, entity, actionType, e] + additionalInfo)];
    }

    /** The cluster spy records `pushMsgToRuleEngine`. */
    method RecordPushMsgToRuleEngine(tenantId: Value, entityId: Value, msg: Value, error: Value)
      requires Valid()
      modifies this
      ensures Valid() && audit == old(audit)
      ensures cluster == old(cluster) + [Call(PushMsgToRuleEngine, [tenantId, entityId, msg, error])]
    {
      cluster := cluster + [Call(PushMsgToRuleEngine, [tenantId, entityId, msg, error])];
    }

    /** The cluster spy records `sendNotificationMsgToEdgeService`. */
    method RecordSendNotificationMsgToEdgeService(tenantId: Value, edgeId: Value, entityId: Value, action: Value,
                                                  body: Value, edgeEventType: Value)
      requires Valid()
      modifies this
      ensures Valid() && audit == old(audit)
      ensures cluster == old(cluster) + [Call(SendNotificationMsgToEdgeService, [tenantId, edgeId, entityId, action, body, edgeEventType])]
    {
      cluster := cluster + [Call(SendNotificationMsgToEdgeService, [tenantId, edgeId, entityId, action, body, edgeEventType])];
    }

    /** The cluster spy records `broadcastEntityStateChangeEvent`. */
    method RecordBroadcastEntityStateChangeEvent(tenantId: Value, entityId: Value, state: Value)
      requires Valid()
      modifies this
      ensures Valid() && audit == old(audit)
      ensures cluster == old(cluster) + [Call(BroadcastEntityStateChangeEvent, [tenantId, entityId, state])]
    {
      cluster := cluster + [Call(BroadcastEntityStateChangeEvent, [tenantId, entityId, state])];
    }

    /** `Mockito.reset(tbClusterService, auditLogService)`: both histories are emptied. */
    method Reset()
      modifies this
      ensures cluster == [] && audit == []
    {
      cluster, audit := [], [];
    }

    /** `testNotifyEntityAllOneTime`: edge, audit and rule engine each exactly once; then the spies are reset. */
    method NotifyEntityAllOneTime(entity: Entity, entityId: EntityId, originatorId: EntityId, tenantId: Value,
                                  customerId: Value, userId: Value, userName: Value, actionType: ActionType,
                                  additionalInfo: seq<Value>) returns (r: Outcome)
      requires Valid()
      modifies this
      ensures Valid()
      ensures r == FirstFailure([
        (SendNotificationMsgToEdgeService, SendNotificationMsgToEdgeServiceTime(old(cluster), edgeTypeByActionType, entityId, tenantId, actionType, 1)),
        (LogEntityAction, LogEntityActionOneTime(old(audit), entity, originatorId, tenantId, customerId, userId, userName, actionType, additionalInfo)),
        (PushMsgToRuleEngine, PushMsgToRuleEngineTime(old(cluster), originatorId, tenantId, 1))])
      ensures if r.Pass? then cluster == [] && audit == [] else cluster == old(cluster) && audit == old(audit)
    {
      FirstFailureOfThree((SendNotificationMsgToEdgeService, SendNotificationMsgToEdgeServiceTime(cluster, edgeTypeByActionType, entityId, tenantId, actionType, 1)),
        (LogEntityAction, LogEntityActionOneTime(audit, entity, originatorId, tenantId, customerId, userId, userName, actionType, additionalInfo)),
        (PushMsgToRuleEngine, PushMsgToRuleEngineTime(cluster, originatorId, tenantId, 1)));
      if !SendNotificationMsgToEdgeServiceTime(cluster, edgeTypeByActionType, entityId, tenantId, actionType, 1) {
        return Mismatch(SendNotificationMsgToEdgeService);
      }
      if !LogEntityActionOneTime(audit, entity, originatorId, tenantId, customerId, userId, userName, actionType, additionalInfo) {
        return Mismatch(LogEntityAction);
      }
      if !PushMsgToRuleEngineTime(cluster, originatorId, tenantId, 1) {
        return Mismatch(PushMsgToRuleEngine);
      }
      Reset();
      r := Pass;
    }

    /** `testNotifyEntityNeverMsgToEdgeServiceOneTime`: edge exactly once, no audit and no rule-engine call; then reset. */
    method NotifyEntityNeverMsgToEdgeServiceOneTime(entity: Entity, entityId: EntityId, tenantId: Value,
                                                    actionType: ActionType) returns (r: Outcome)
      requires Valid()
      modifies this
      ensures Valid()
      ensures r == FirstFailure([
        (SendNotificationMsgToEdgeService, SendNotificationMsgToEdgeServiceTime(old(cluster), edgeTypeByActionType, entityId, tenantId, actionType, 1)),
        (LogEntityAction, LogEntityActionNever(old(audit), entityId, entity)),
        (PushMsgToRuleEngine, PushMsgToRuleEngineNever(old(cluster), entityId))])
      ensures if r.Pass? then cluster == [] && audit == [] else cluster == old(cluster) && audit == old(audit)
    {
      FirstFailureOfThree((SendNotificationMsgToEdgeService, SendNotificationMsgToEdgeServiceTime(cluster, edgeTypeByActionType, entityId, tenantId, actionType, 1)),
        (LogEntityAction, LogEntityActionNever(audit, entityId, entity)),
        (PushMsgToRuleEngine, PushMsgToRuleEngineNever(cluster, entityId)));
      if !SendNotificationMsgToEdgeServiceTime(cluster, edgeTypeByActionType, entityId, tenantId, actionType, 1) {
        return Mismatch(SendNotificationMsgToEdgeService);
      }
      if !LogEntityActionNever(audit, entityId, entity) {
        return Mismatch(LogEntityAction);
      }
      if !PushMsgToRuleEngineNever(cluster, entityId) {
        return Mismatch(PushMsgToRuleEngine);
      }
      Reset();
      r := Pass;
    }

    /** `testNotifyEntityOneTimeMsgToEdgeServiceNever`: no edge call, audit and rule engine exactly once; then reset. */
    method NotifyEntityOneTimeMsgToEdgeServiceNever(entity: Entity, entityId: EntityId, originatorId: EntityId,
                                                    tenantId: Value, customerId: Value, userId: Value, userName: Value,
                                                    actionType: ActionType, additionalInfo: seq<Value>) returns (r: Outcome)
      requires Valid()
      modifies this
      ensures Valid()
      ensures r == FirstFailure([
        (SendNotificationMsgToEdgeService, NotificationMsgToEdgeServiceNever(old(cluster), entityId)),
        (LogEntityAction, LogEntityActionOneTime(old(audit), entity, originatorId, tenantId, customerId, userId, userName, actionType, additionalInfo)),
        (PushMsgToRuleEngine, PushMsgToRuleEngineTime(old(cluster), originatorId, tenantId, 1))])
      ensures if r.Pass? then cluster == [] && audit == [] else cluster == old(cluster) && audit == old(audit)
    {
      FirstFailureOfThree((SendNotificationMsgToEdgeService, NotificationMsgToEdgeServiceNever(cluster, entityId)),
        (LogEntityAction, LogEntityActionOneTime(audit, entity, originatorId, tenantId, customerId, userId, userName, actionType, additionalInfo)),
        (PushMsgToRuleEngine, PushMsgToRuleEngineTime(cluster, originatorId, tenantId, 1)));
      if !NotificationMsgToEdgeServiceNever(cluster, entityId) {
        return Mismatch(SendNotificationMsgToEdgeService);
      }
      if !LogEntityActionOneTime(audit, entity, originatorId, tenantId, customerId, userId, userName, actionType, additionalInfo) {
        return Mismatch(LogEntityAction);
      }
      if !PushMsgToRuleEngineTime(cluster, originatorId, tenantId, 1) {
        return Mismatch(PushMsgToRuleEngine);
      }
      Reset();
      r := Pass;
    }

    /**
     * `testNotifyEntityManyTimeMsgToEdgeServiceNever`: both ids are the null
     * ids of the entity's and the originator's classes; no edge call, audit and
     * rule engine exactly `cntTime` times; then reset.
     */
    method NotifyEntityManyTimeMsgToEdgeServiceNever(entity: Entity, originator: Entity, tenantId: Value,
                                                     customerId: Value, userId: Value, userName: Value,
                                                     actionType: ActionType, cntTime: int,
                                                     additionalInfo: seq<Value>) returns (r: Outcome)
      requires Valid()
      modifies this
      ensures Valid()
      ensures r == match (CreateEntityIdNullUuid(entity), CreateEntityIdNullUuid(originator))
        case (Err(name), _) => UnknownEntityType(name)
        case (Ok(_), Err(name)) => UnknownEntityType(name)
        case (Ok(entityId), Ok(originatorId)) => FirstFailure([
          (SendNotificationMsgToEdgeService, NotificationMsgToEdgeServiceNever(old(cluster), entityId)),
          (LogEntityAction, LogEntityActionManyTime(old(audit), entity, originatorId, tenantId, customerId, userId, userName, actionType, cntTime, additionalInfo)),
          (PushMsgToRuleEngine, PushMsgToRuleEngineTime(old(cluster), originatorId, tenantId, cntTime))])
      ensures if r.Pass? then cluster == [] && audit == [] else cluster == old(cluster) && audit == old(audit)
    {
      var entityId := CreateEntityIdNullUuid(entity);
      if entityId.Err? {
        return UnknownEntityType(entityId.reason);
      }
      var originatorId := CreateEntityIdNullUuid(originator);
      if originatorId.Err? {
        return UnknownEntityType(originatorId.reason);
      }
      FirstFailureOfThree(
        (SendNotificationMsgToEdgeService, NotificationMsgToEdgeServiceNever(cluster, entityId.value)),
        (LogEntityAction, LogEntityActionManyTime(audit, entity, originatorId.value, tenantId, customerId, userId, userName, actionType, cntTime, additionalInfo)),
        (PushMsgToRuleEngine, PushMsgToRuleEngineTime(cluster, originatorId.value, tenantId, cntTime)));
      if !NotificationMsgToEdgeServiceNever(cluster, entityId.value) {
        return Mismatch(SendNotificationMsgToEdgeService);
      }
      if !LogEntityActionManyTime(audit, entity, originatorId.value, tenantId, customerId, userId, userName, actionType, cntTime, additionalInfo) {
        return Mismatch(LogEntityAction);
      }
      if !PushMsgToRuleEngineTime(cluster, originatorId.value, tenantId, cntTime) {
        return Mismatch(PushMsgToRuleEngine);
      }
      Reset();
      r := Pass;
    }

    /**
     * `testNotifyEntityBroadcastEntityStateChangeEventOneTimeMsgToEdgeServiceNever`:
     * no edge call; audit, rule engine and state-change broadcast exactly once; then reset.
     */
    method NotifyEntityBroadcastEntityStateChangeEventOneTimeMsgToEdgeServiceNever(
      entity: Entity, entityId: EntityId, originatorId: EntityId, tenantId: Value, customerId: Value, userId: Value,
      userName: Value, actionType: ActionType, additionalInfo: seq<Value>) returns (r: Outcome)
      requires Valid()
      modifies this
      ensures Valid()
      ensures r == FirstFailure([
        (SendNotificationMsgToEdgeService, NotificationMsgToEdgeServiceNever(old(cluster), entityId)),
        (LogEntityAction, LogEntityActionOneTime(old(audit), entity, originatorId, tenantId, customerId, userId, userName, actionType, additionalInfo)),
        (PushMsgToRuleEngine, PushMsgToRuleEngineTime(old(cluster), originatorId, tenantId, 1)),
        (BroadcastEntityStateChangeEvent, BroadcastEntityStateChangeEventTime(old(cluster), entityId, tenantId, 1))])
      ensures if r.Pass? then cluster == [] && audit == [] else cluster == old(cluster) && audit == old(audit)
    {
      FirstFailureOfFour((SendNotificationMsgToEdgeService, NotificationMsgToEdgeServiceNever(cluster, entityId)),
        (LogEntityAction, LogEntityActionOneTime(audit, entity, originatorId, tenantId, customerId, userId, userName, actionType, additionalInfo)),
        (PushMsgToRuleEngine, PushMsgToRuleEngineTime(cluster, originatorId, tenantId, 1)),
        (BroadcastEntityStateChangeEvent, BroadcastEntityStateChangeEventTime(cluster, entityId, tenantId, 1)));
      FirstFailureOfThree(
        (LogEntityAction, LogEntityActionOneTime(audit, entity, originatorId, tenantId, customerId, userId, userName, actionType, additionalInfo)),
        (PushMsgToRuleEngine, PushMsgToRuleEngineTime(cluster, originatorId, tenantId, 1)),
        (BroadcastEntityStateChangeEvent, BroadcastEntityStateChangeEventTime(cluster, entityId, tenantId, 1)));
      if !NotificationMsgToEdgeServiceNever(cluster, entityId) {
        return Mismatch(SendNotificationMsgToEdgeService);
      }
      if !LogEntityActionOneTime(audit, entity, originatorId, tenantId, customerId, userId, userName, actionType, additionalInfo) {
        return Mismatch(LogEntityAction);
      }
      if !PushMsgToRuleEngineTime(cluster, originatorId, tenantId, 1) {
        return Mismatch(PushMsgToRuleEngine);
      }
      if !BroadcastEntityStateChangeEventTime(cluster, entityId, tenantId, 1) {
        return Mismatch(BroadcastEntityStateChangeEvent);
      }
      Reset();
      r := Pass;
    }

    /**
     * `testNotifyEntityOneTimeError`: for the entity's null id, no edge call,
     * exactly one audit call carrying the expected error, no rule-engine call.
     * It does not reset the spies.
     */
    method NotifyEntityOneTimeError(entity: Entity, tenantId: Value, userId: Value, userName: Value,
                                    actionType: ActionType, exp: Exception, additionalInfo: seq<Value>) returns (r: Outcome)
      ensures r == match CreateEntityIdNullUuid(entity)
        case Err(name) => UnknownEntityType(name)
        case Ok(entityNullId) => FirstFailure([
          (SendNotificationMsgToEdgeService, NotificationMsgToEdgeServiceNever(cluster, entityNullId)),
          (LogEntityAction, LogEntityActionOneTimeError(audit, entity, entityNullId, tenantId, userId, userName, actionType, exp, additionalInfo)),
          (PushMsgToRuleEngine, PushMsgToRuleEngineNever(cluster, entityNullId))])
    {
      var entityNullId := CreateEntityIdNullUuid(entity);
      if entityNullId.Err? {
        return UnknownEntityType(entityNullId.reason);
      }
      FirstFailureOfThree(
        (SendNotificationMsgToEdgeService, NotificationMsgToEdgeServiceNever(cluster, entityNullId.value)),
        (LogEntityAction, LogEntityActionOneTimeError(audit, entity, entityNullId.value, tenantId, userId, userName, actionType, exp, additionalInfo)),
        (PushMsgToRuleEngine, PushMsgToRuleEngineNever(cluster, entityNullId.value)));
      if !NotificationMsgToEdgeServiceNever(cluster, entityNullId.value) {
        return Mismatch(SendNotificationMsgToEdgeService);
      }
      if !LogEntityActionOneTimeError(audit, entity, entityNullId.value, tenantId, userId, userName, actionType, exp, additionalInfo) {
        return Mismatch(LogEntityAction);
      }
      if !PushMsgToRuleEngineNever(cluster, entityNullId.value) {
        return Mismatch(PushMsgToRuleEngine);
      }
      r := Pass;
    }

    /**
     * `testNotifyEntityNever`: with the entity's null id standing in for a
     * missing id, no edge, audit or rule-engine call of that kind; then reset.
     */
    method NotifyEntityNever(entityId: Option<EntityId>, entity: Entity) returns (r: Outcome)
      requires Valid()
      modifies this
      ensures Valid()
      ensures r == match (if entityId.Some? then Ok(entityId.value) else CreateEntityIdNullUuid(entity))
        case Err(name) => UnknownEntityType(name)
        case Ok(id) => FirstFailure([
          (SendNotificationMsgToEdgeService, NotificationMsgToEdgeServiceNever(old(cluster), id)),
          (LogEntityAction, LogEntityActionNever(old(audit), id, entity)),
          (PushMsgToRuleEngine, PushMsgToRuleEngineNever(old(cluster), id))])
      ensures if r.Pass? then cluster == [] && audit == [] else cluster == old(cluster) && audit == old(audit)
    {
      var id := if entityId.Some? then Ok(entityId.value) else CreateEntityIdNullUuid(entity);
      if id.Err? {
        return UnknownEntityType(id.reason);
      }
      FirstFailureOfThree(
        (SendNotificationMsgToEdgeService, NotificationMsgToEdgeServiceNever(cluster, id.value)),
        (LogEntityAction, LogEntityActionNever(audit, id.value, entity)),
        (PushMsgToRuleEngine, PushMsgToRuleEngineNever(cluster, id.value)));
      if !NotificationMsgToEdgeServiceNever(cluster, id.value) {
        return Mismatch(SendNotificationMsgToEdgeService);
      }
      if !LogEntityActionNever(audit, id.value, entity) {
        return Mismatch(LogEntityAction);
      }
      if !PushMsgToRuleEngineNever(cluster, id.value) {
        return Mismatch(PushMsgToRuleEngine);
      }
      Reset();
      r := Pass;
    }
  }

  /** The fixture after a controller created `entity` for a tenant user with no customer. */
  method RecordCreation(edgeTypeByActionType: ActionType -> Option<EdgeEventType>, entity: Entity, entityId: EntityId,
                        tenantId: Value, userId: Value, userName: Value, actionType: ActionType, msg: Value)
    returns (f: NotifyFixture)
    ensures fresh(f) && f.Valid() && f.edgeTypeByActionType == edgeTypeByActionType
    ensures f.cluster == [Call(SendNotificationMsgToEdgeService, [tenantId, Null, Id(entityId), Null, Null, EdgeTypeValue(edgeTypeByActionType(actionType))]),
                          Call(PushMsgToRuleEngine, [tenantId, Id(entityId), msg, Null])]
    ensures f.audit == [Call(LogEntityAction, [tenantId, Null, userId, userName, Id(entityId), Named(entity), Action(actionType), Null])]
  {
    f := new NotifyFixture(edgeTypeByActionType);
    f.RecordSendNotificationMsgToEdgeService(tenantId, Null, Id(entityId), Null, Null, EdgeTypeValue(edgeTypeByActionType(actionType)));
    f.RecordLogEntityAction(tenantId, Null, userId, userName, Id(entityId), Named(entity), Action(actionType), Null, []);
    f.RecordPushMsgToRuleEngine(tenantId, Id(entityId), msg, Null);
    assert [tenantId, Null, userId, userName, Id(entityId), Named(entity), Action(actionType), Null] + [] ==
           [tenantId, Null, userId, userName, Id(entityId), Named(entity), Action(actionType), Null];
  }

  /**
   * A device is created by a tenant user with no customer: the edge, audit
   * and rule-engine notifications pass the all-channels scenario, which
   * leaves the spies empty.
   */
  method DeviceCreatedPassesAllOneTime(edgeTypeByActionType: ActionType -> Option<EdgeEventType>, deviceId: EntityId,
                                       state: string, tenant: Value, user: Value, userName: Value, added: ActionType,
                                       msg: Value)
    returns (r: Outcome, left: nat)
    requires msg.Msg?
    ensures r == Pass && left == 0
  {
    var device := Entity("org.thingsboard.server.common.data.Device", state);
    CreatedNotificationsPassOneTimeChecks(edgeTypeByActionType, device, deviceId, tenant, user, userName, added, msg);
    var f := RecordCreation(edgeTypeByActionType, device, deviceId, tenant, user, userName, added, msg);
    FirstFailureOfThree(
      (SendNotificationMsgToEdgeService, SendNotificationMsgToEdgeServiceTime(f.cluster, edgeTypeByActionType, deviceId, tenant, added, 1)),
      (LogEntityAction, LogEntityActionOneTime(f.audit, device, deviceId, tenant, Null, user, userName, added, [])),
      (PushMsgToRuleEngine, PushMsgToRuleEngineTime(f.cluster, deviceId, tenant, 1)));
    r := f.NotifyEntityAllOneTime(device, deviceId, deviceId, tenant, Null, user, userName, added, []);
    left := |f.cluster| + |f.audit|;
  }

  /**
   * The same notifications fail the edge-only scenario on its audit check,
   * and the spies keep them.
   */
  method DeviceCreatedFailsEdgeOnly(edgeTypeByActionType: ActionType -> Option<EdgeEventType>, deviceId: EntityId,
                                    state: string, tenant: Value, user: Value, userName: Value, added: ActionType,
                                    msg: Value)
    returns (r: Outcome, left: nat)
    requires msg.Msg?
    ensures r == Mismatch(LogEntityAction) && left == 3
  {
    var device := Entity("org.thingsboard.server.common.data.Device", state);
    CreatedNotificationsPassOneTimeChecks(edgeTypeByActionType, device, deviceId, tenant, user, userName, added, msg);
    var g := RecordCreation(edgeTypeByActionType, device, deviceId, tenant, user, userName, added, msg);
    FirstFailureOfThree(
      (SendNotificationMsgToEdgeService, SendNotificationMsgToEdgeServiceTime(g.cluster, edgeTypeByActionType, deviceId, tenant, added, 1)),
      (LogEntityAction, LogEntityActionNever(g.audit, deviceId, device)),
      (PushMsgToRuleEngine, PushMsgToRuleEngineNever(g.cluster, deviceId)));
    r := g.NotifyEntityNeverMsgToEdgeServiceOneTime(device, deviceId, tenant, added);
    left := |g.cluster| + |g.audit|;
  }

  /**
   * The three notifications of a creation without customer pass the one-time
   * checks of all three channels, and fail the audit "never" check.
   */
  lemma CreatedNotificationsPassOneTimeChecks(edgeTypeByActionType: ActionType -> Option<EdgeEventType>, entity: Entity,
                                              entityId: EntityId, tenantId: Value, userId: Value, userName: Value,
                                              actionType: ActionType, msg: Value)
    requires msg.Msg?
    ensures var edge := Call(SendNotificationMsgToEdgeService, [tenantId, Null, Id(entityId), Null, Null, EdgeTypeValue(edgeTypeByActionType(actionType))]);
      var pushed := Call(PushMsgToRuleEngine, [tenantId, Id(entityId), msg, Null]);
      var logged := Call(LogEntityAction, [tenantId, Null, userId, userName, Id(entityId), Named(entity), Action(actionType), Null]);
      SendNotificationMsgToEdgeServiceTime([edge, pushed], edgeTypeByActionType, entityId, tenantId, actionType, 1) &&
      LogEntityActionOneTime([logged], entity, entityId, tenantId, Null, userId, userName, actionType, []) &&
      PushMsgToRuleEngineTime([edge, pushed], entityId, tenantId, 1) &&
      !LogEntityActionNever([logged], entityId, entity)
  {
    var edge := Call(SendNotificationMsgToEdgeService, [tenantId, Null, Id(entityId), Null, Null, EdgeTypeValue(edgeTypeByActionType(actionType))]);
    var pushed := Call(PushMsgToRuleEngine, [tenantId, Id(entityId), msg, Null]);
    var logged := Call(LogEntityAction, [tenantId, Null, userId, userName, Id(entityId), Named(entity), Action(actionType), Null]);
    assert multiset([edge, pushed])[edge] == 1;
    CreatedAuditOnce(entity, entityId, tenantId, userId, userName, actionType);
    CreatedPushOnce(edge, entityId, tenantId, msg);
    AuditOnceRefutesAuditNever([logged], entity, entityId, tenantId, Null, userId, userName, actionType, entityId, entity);
  }

  lemma CreatedAuditOnce(entity: Entity, entityId: EntityId, tenantId: Value, userId: Value, userName: Value,
                         actionType: ActionType)
    ensures LogEntityActionOneTime([Call(LogEntityAction, [tenantId, Null, userId, userName, Id(entityId), Named(entity), Action(actionType), Null])],
                                   entity, entityId, tenantId, Null, userId, userName, actionType, [])
  {
    var logged := Call(LogEntityAction, [tenantId, Null, userId, userName, Id(entityId), Named(entity), Action(actionType), Null]);
    assert logged == Call(LogEntityAction, ExpectedAuditArgs(entity, entityId, tenantId, Null, userId, userName, actionType, []));
  }

  lemma CreatedPushOnce(other: Call, entityId: EntityId, tenantId: Value, msg: Value)
    requires msg.Msg? && other.op != PushMsgToRuleEngine
    ensures PushMsgToRuleEngineTime([other, Call(PushMsgToRuleEngine, [tenantId, Id(entityId), msg, Null])], entityId, tenantId, 1)
  {
    var pushed := Call(PushMsgToRuleEngine, [tenantId, Id(entityId), msg, Null]);
    var ms := RuleEngineMatchers(entityId, tenantId, 1);
    RuleEngineMatchersAccept(pushed, entityId, tenantId, 1);
    CountSingle(other, PushMsgToRuleEngine, ms);
    assert [other, pushed][..1] == [other];
  }
}
