# ThingsBoard: entity-notification test fixture and two-factor login page

This project models two parts of ThingsBoard in Dafny and proves properties of them.

**The notification test fixture** (`AbstractNotifyEntityTest`). Controller tests check that an entity change sent the right notifications. There are four of them:

- an audit-log entry (`AuditLogService.logEntityAction`);
- a rule-engine message (`TbClusterService.pushMsgToRuleEngine`);
- an edge notification (`TbClusterService.sendNotificationMsgToEdgeService`);
- a lifecycle broadcast (`TbClusterService.broadcastEntityStateChangeEvent`).

The two services are Mockito spies. The model keeps each spy's recorded call history as a sequence of calls, in the fields of the class `NotifyEntity.NotifyFixture`.

A Mockito verification is modelled as counting, in `RecordedCalls.Count` and `RecordedCalls.Verify`. It counts the recorded calls of one operation that have as many arguments as there are matchers, and whose arguments the matchers accept position by position.

- The matchers are `eq`, `any(Class)`, `isNull`, `any()` and `argThat`.
- `any(Class)` accepts a non-null value of that class.

Each verification primitive of the fixture is a predicate over a history. Each scenario is a method:

- It runs its checks in order.
- The first failing check aborts it and names its channel.
- A scenario that passes empties both histories. The exception is the error-path scenario, which leaves them as they were.

When no live entity id exists, a scenario builds a synthetic id:

- Take the part of the entity's class name after the last dot and upper-case it.
- Look it up among the `EntityType` constant names.
- Pair the kind with ThingsBoard's null UUID.

A class name that is no `EntityType` name makes the scenario fail with `UnknownEntityType`. Java's `valueOf` throws in that case.

**The two-factor login page** (`TwoFactorAuthLoginComponent`, Angular) is the class `TwoFactorAuthLogin.TwoFactorLogin`. Its fields are the component's fields. Its methods are the component's methods, plus the callbacks of the "send code" request. Calls to the back end are recorded in fields of their own:

- code requests;
- code checks;
- logouts.

On initialisation the page does the following:

- It scans the provider kinds in enumeration order.
- It offers, in that order, every kind the user has configured.
- It selects the default-flagged one and takes that provider's resend period. If several are flagged, the last one wins. A period of `0` means 30 seconds.
- It ends by requesting a code, unless the selection is TOTP.

The scan is the loop in `TwoFactorAuthLogin.ScanProviders`. The loop is proved against recursive specification functions:

| function | what it computes |
|---|---|
| `Allowed` | the kinds offered |
| `ScanSelected` | the kind selected |
| `ScanPeriod` | the resend period |
| `LastDefault` | the last flagged configuration |

The resend countdown is the pure step `Tick` of a `ResendTimer`.

## Model

| member | source | states |
|---|---|---|
| RecordedCalls.Count | application/src/test/java/org/thingsboard/server/controller/AbstractNotifyEntityTest.java:132-195 | the number of matching recorded calls is at most the history's length, and it is zero exactly when no recorded call of that operation is accepted by the matchers |
| RecordedCalls.Verify | application/src/test/java/org/thingsboard/server/controller/AbstractNotifyEntityTest.java:132-195 | `verify(spy, times(n))` passes only for 0 <= n <= the history's length; for `never()` it passes exactly when no call matches; for n > 0 some recorded call matches |
| RecordedCalls.CountSingle | application/src/test/java/org/thingsboard/server/controller/AbstractNotifyEntityTest.java:132-195 | a history of one call counts 1 when that call matches and 0 otherwise |
| RecordedCalls.CountAppend | application/src/test/java/org/thingsboard/server/controller/AbstractNotifyEntityTest.java:132-195 | the count over two histories put together is the sum of their counts |
| RecordedCalls.CountWhere | application/src/test/java/org/thingsboard/server/controller/AbstractNotifyEntityTest.java:132-195 | the number of recorded calls satisfying a test is at most the history's length, and zero exactly when no call satisfies it |
| RecordedCalls.CountIsCountWhere | application/src/test/java/org/thingsboard/server/controller/AbstractNotifyEntityTest.java:132-195 | matchers that accept exactly the calls satisfying a test count exactly those calls, so every verification equals an independent count of call shapes |
| RecordedCalls.PinnedCallMatches | application/src/test/java/org/thingsboard/server/controller/AbstractNotifyEntityTest.java:148-160 | when every matcher is `eq` or `isNull`, a call matches exactly when it is that one call |
| RecordedCalls.CountPinned | application/src/test/java/org/thingsboard/server/controller/AbstractNotifyEntityTest.java:148-160 | with such matchers, verification counts the multiplicity of that one call in the history |
| NotifyEntity.ValueOf | application/src/test/java/org/thingsboard/server/controller/AbstractNotifyEntityTest.java:209 | `EntityType.valueOf` returns only the kind whose constant name is the given text |
| NotifyEntity.ValueOfName | application/src/test/java/org/thingsboard/server/controller/AbstractNotifyEntityTest.java:209 | `valueOf` of any kind's constant name is that kind |
| NotifyEntity.ValueOfFails | application/src/test/java/org/thingsboard/server/controller/AbstractNotifyEntityTest.java:209 | `valueOf` fails exactly when no kind has the text as its name |
| NotifyEntity.LastIndexOf | application/src/test/java/org/thingsboard/server/controller/AbstractNotifyEntityTest.java:210 | `lastIndexOf` returns -1 when the character is absent; otherwise an index holding it with no later occurrence |
| NotifyEntity.CreateEntityIdNullUuid | application/src/test/java/org/thingsboard/server/controller/AbstractNotifyEntityTest.java:208-212 | the synthetic id exists exactly when the upper-cased simple class name is an entity type name; it then carries that kind and the null UUID, and otherwise the error names the unmatched text |
| NotifyEntity.LastDotOfQualified | application/src/test/java/org/thingsboard/server/controller/AbstractNotifyEntityTest.java:210 | in `class p.q.Simple` the last dot is the one before the simple name |
| NotifyEntity.KindNameOfQualified | application/src/test/java/org/thingsboard/server/controller/AbstractNotifyEntityTest.java:209-210 | the looked-up text of a class `pkg.Simple` is the upper-cased simple name |
| NotifyEntity.SyntheticIdOfQualifiedClass | application/src/test/java/org/thingsboard/server/controller/AbstractNotifyEntityTest.java:208-212 | an entity whose class is `pkg.Simple`, with `Simple` upper-cased naming kind t, gets the id (t, null UUID) |
| NotifyEntity.SyntheticIdKeyedOnClass | application/src/test/java/org/thingsboard/server/controller/AbstractNotifyEntityTest.java:208-212 | the synthetic id depends only on the entity's class, not on its other fields |
| NotifyEntity.SyntheticIdInjective | application/src/test/java/org/thingsboard/server/controller/AbstractNotifyEntityTest.java:208-212 | two entities that both have synthetic ids get the same one exactly when their class names give the same kind name |
| NotifyEntity.DeviceSyntheticId | application/src/test/java/org/thingsboard/server/controller/AbstractNotifyEntityTest.java:208-212 | a `org.thingsboard.server.common.data.Device` gets the synthetic id (DEVICE, null UUID) |
| NotifyEntity.RuleChainHasNoSyntheticId | application/src/test/java/org/thingsboard/server/controller/AbstractNotifyEntityTest.java:208-212 | a `RuleChain` gets no synthetic id, because `RULECHAIN` is not the name `RULE_CHAIN` |
| NotifyEntity.UpperCaseRuleChain | application/src/test/java/org/thingsboard/server/controller/AbstractNotifyEntityTest.java:210 | upper-casing `RuleChain` gives `RULECHAIN` |
| NotifyEntity.ExtractParameter | application/src/test/java/org/thingsboard/server/controller/AbstractNotifyEntityTest.java:197-206 | a negative index into present varargs is an out-of-bounds error; a non-null result exists exactly when the varargs are present, the index is in range and the element is of the requested class, and it is then that element; otherwise null |
| NotifyEntity.AdditionalInfoStr | application/src/test/java/org/thingsboard/server/controller/AbstractNotifyEntityTest.java:155 | the single audit argument is the first additional value when it is a string, and null otherwise |
| NotifyEntity.NotificationMsgToEdgeServiceNever | application/src/test/java/org/thingsboard/server/controller/AbstractNotifyEntityTest.java:132-135 | the edge "never" check passes exactly when no edge notification carries an id of the entity id's kind |
| NotifyEntity.LogEntityActionNever | application/src/test/java/org/thingsboard/server/controller/AbstractNotifyEntityTest.java:137-141 | the audit "never" check passes exactly when no eight-argument audit call has an id of that kind and an entity of that class |
| NotifyEntity.PushMsgToRuleEngineNever | application/src/test/java/org/thingsboard/server/controller/AbstractNotifyEntityTest.java:143-146 | the rule-engine "never" check passes exactly when no message carries an id of that kind |
| NotifyEntity.LogEntityActionOneTime | application/src/test/java/org/thingsboard/server/controller/AbstractNotifyEntityTest.java:148-160 | the one-time audit check passes exactly when the fully determined expected call (with a null error and at most one additional string) occurs exactly once |
| NotifyEntity.ManyTimeAuditMatchersAccept | application/src/test/java/org/thingsboard/server/controller/AbstractNotifyEntityTest.java:162-174 | the many-time audit matchers accept exactly the calls with the expected tenant, customer, user, name and action, an originator of the originator's kind, an entity of the entity's class and a null error |
| NotifyEntity.ManyTimeAuditCount | application/src/test/java/org/thingsboard/server/controller/AbstractNotifyEntityTest.java:162-174 | the many-time audit matchers count exactly the recorded calls of the many-time shape |
| NotifyEntity.LogEntityActionManyTime | application/src/test/java/org/thingsboard/server/controller/AbstractNotifyEntityTest.java:162-174 | the many-time audit check passes exactly when the number of recorded calls of the many-time shape equals `cntTime`; so a passing check has 0 <= cntTime <= the history's length |
| NotifyEntity.RuleEngineMatchersAccept | application/src/test/java/org/thingsboard/server/controller/AbstractNotifyEntityTest.java:176-184 | the rule-engine matchers accept exactly messages with that tenant, a message value and a null error, with the originator compared exactly for a count of one and by kind otherwise |
| NotifyEntity.RuleEngineCount | application/src/test/java/org/thingsboard/server/controller/AbstractNotifyEntityTest.java:176-184 | the rule-engine matchers count exactly the recorded messages of the rule-engine shape |
| NotifyEntity.PushMsgToRuleEngineTime | application/src/test/java/org/thingsboard/server/controller/AbstractNotifyEntityTest.java:176-184 | the rule-engine check passes exactly when the number of recorded messages of the rule-engine shape for `cntTime` equals `cntTime`; so a passing check has 0 <= cntTime <= the history's length |
| NotifyEntity.SendNotificationMsgToEdgeServiceTime | application/src/test/java/org/thingsboard/server/controller/AbstractNotifyEntityTest.java:186-190 | the edge check passes exactly when the expected notification (null edge, action and body, the mapped edge event type) occurs the expected number of times |
| NotifyEntity.BroadcastMatchersAccept | application/src/test/java/org/thingsboard/server/controller/AbstractNotifyEntityTest.java:192-195 | the broadcast matchers accept exactly the broadcasts for that tenant with an id of the entity id's kind and a lifecycle event |
| NotifyEntity.BroadcastCount | application/src/test/java/org/thingsboard/server/controller/AbstractNotifyEntityTest.java:192-195 | the broadcast matchers count exactly the recorded broadcasts of that shape |
| NotifyEntity.BroadcastEntityStateChangeEventTime | application/src/test/java/org/thingsboard/server/controller/AbstractNotifyEntityTest.java:192-195 | the broadcast check passes exactly when the number of recorded broadcasts of that shape equals `cntTime`; for `cntTime` 0 that means no such broadcast |
| NotifyEntity.ErrorAuditMatchersAccept | application/src/test/java/org/thingsboard/server/controller/AbstractNotifyEntityTest.java:104-120 | the error-path matchers accept exactly the audit calls with the expected tenant, the null-UUID customer, user, name, synthetic id, entity and action, and an error whose message contains the expected one; the error's class is compared only when there is no additional info, and the additional values are compared one by one |
| NotifyEntity.ErrorAuditMatchersSound | application/src/test/java/org/thingsboard/server/controller/AbstractNotifyEntityTest.java:104-120 | every call the error-path matchers accept has that shape |
| NotifyEntity.ErrorAuditMatchersComplete | application/src/test/java/org/thingsboard/server/controller/AbstractNotifyEntityTest.java:104-120 | every call of that shape is accepted |
| NotifyEntity.ErrorAuditCount | application/src/test/java/org/thingsboard/server/controller/AbstractNotifyEntityTest.java:104-120 | the error-path matchers count exactly the recorded audit calls of the error-path shape |
| NotifyEntity.LogEntityActionOneTimeError | application/src/test/java/org/thingsboard/server/controller/AbstractNotifyEntityTest.java:104-120 | the error-path audit check passes exactly when exactly one recorded audit call has the error-path shape; such a call then exists |
| NotifyEntity.OneTimeErrorOfSingleCall | application/src/test/java/org/thingsboard/server/controller/AbstractNotifyEntityTest.java:104-120 | on a one-call history the error-path check passes exactly when the call has the error-path shape |
| NotifyEntity.ErrorClassCheckedOnlyWithoutAdditionalInfo | application/src/test/java/org/thingsboard/server/controller/AbstractNotifyEntityTest.java:104-120 | an error of another class with the expected message passes the error-path check with additional info and fails it without |
| NotifyEntity.EdgeOnceRefutesEdgeNever | application/src/test/java/org/thingsboard/server/controller/AbstractNotifyEntityTest.java:132-135 | a history passing the one-time edge check fails the edge "never" check for every id of the same kind |
| NotifyEntity.AuditOnceRefutesAuditNever | application/src/test/java/org/thingsboard/server/controller/AbstractNotifyEntityTest.java:137-160 | a history passing the one-time audit check without additional info fails the audit "never" check for ids and entities of the same classes |
| NotifyEntity.RuleEngineOnceRefutesNever | application/src/test/java/org/thingsboard/server/controller/AbstractNotifyEntityTest.java:143-184 | a history passing the one-time rule-engine check fails the rule-engine "never" check for its kind |
| NotifyEntity.NeverIgnoresCallsWithAdditionalInfo | application/src/test/java/org/thingsboard/server/controller/AbstractNotifyEntityTest.java:137-141 | the eight-matcher audit "never" check does not see a nine-argument audit call, even for exactly that id and entity |
| NotifyEntity.NarrowerFindsNothing | application/src/test/java/org/thingsboard/server/controller/AbstractNotifyEntityTest.java:132-146 | a `never()` check with matchers that accept less passes wherever one with wider matchers passes |
| NotifyEntity.NeverImpliesManyTimeZero | application/src/test/java/org/thingsboard/server/controller/AbstractNotifyEntityTest.java:137-184 | without additional info, the audit and rule-engine "never" checks imply the many-time checks with count 0 for any originator of the same kind |
| NotifyEntity.RuleEngineExactOnlyForOne | application/src/test/java/org/thingsboard/server/controller/AbstractNotifyEntityTest.java:176-184 | a message from one id fails the one-time check for another id of the same kind, and two of them pass the two-time check for it |
| NotifyEntity.ManyTimeSingleCountRejectsLiveOriginator | application/src/test/java/org/thingsboard/server/controller/AbstractNotifyEntityTest.java:80-84 | with a count of one, a rule-engine message from a live id fails the many-time scenario's check against the synthetic (kind, null UUID) originator |
| NotifyEntity.FirstFailure | application/src/test/java/org/thingsboard/server/controller/AbstractNotifyEntityTest.java:50-130 | checks run in order pass exactly when all pass; otherwise the outcome names the channel of the first failing check, all earlier checks having passed |
| NotifyEntity.FirstFailureOfThree | application/src/test/java/org/thingsboard/server/controller/AbstractNotifyEntityTest.java:50-57 | three checks fail at the first failing one, in order |
| NotifyEntity.FirstFailureOfFour | application/src/test/java/org/thingsboard/server/controller/AbstractNotifyEntityTest.java:88-96 | four checks fail at the first one if it fails, and otherwise as the remaining three |
| NotifyEntity.NotifyFixture.constructor | application/src/test/java/org/thingsboard/server/controller/AbstractNotifyEntityTest.java:44-48 | both spies start with empty histories, under the given action-to-edge-event mapping |
| NotifyEntity.NotifyFixture.RecordLogEntityAction | application/src/test/java/org/thingsboard/server/controller/AbstractNotifyEntityTest.java:47-48 | the audit spy appends the call with its varargs expanded; the cluster history is unchanged |
| NotifyEntity.NotifyFixture.RecordPushMsgToRuleEngine | application/src/test/java/org/thingsboard/server/controller/AbstractNotifyEntityTest.java:44-45 | the cluster spy appends the rule-engine call; the audit history is unchanged |
| NotifyEntity.NotifyFixture.RecordSendNotificationMsgToEdgeService | application/src/test/java/org/thingsboard/server/controller/AbstractNotifyEntityTest.java:44-45 | the cluster spy appends the edge call; the audit history is unchanged |
| NotifyEntity.NotifyFixture.RecordBroadcastEntityStateChangeEvent | application/src/test/java/org/thingsboard/server/controller/AbstractNotifyEntityTest.java:44-45 | the cluster spy appends the broadcast call; the audit history is unchanged |
| NotifyEntity.NotifyFixture.Reset | application/src/test/java/org/thingsboard/server/controller/AbstractNotifyEntityTest.java:56 | both histories become empty |
| NotifyEntity.NotifyFixture.NotifyEntityAllOneTime | application/src/test/java/org/thingsboard/server/controller/AbstractNotifyEntityTest.java:50-57 | the outcome is the first failure of edge once, audit once and rule engine once, on the histories before the call; only a pass empties them |
| NotifyEntity.NotifyFixture.NotifyEntityNeverMsgToEdgeServiceOneTime | application/src/test/java/org/thingsboard/server/controller/AbstractNotifyEntityTest.java:59-65 | the outcome is the first failure of edge once, then audit and rule engine never (for the entity id); only a pass empties the histories |
| NotifyEntity.NotifyFixture.NotifyEntityOneTimeMsgToEdgeServiceNever | application/src/test/java/org/thingsboard/server/controller/AbstractNotifyEntityTest.java:67-74 | the outcome is the first failure of edge never, then audit and rule engine once; only a pass empties the histories |
| NotifyEntity.NotifyFixture.NotifyEntityManyTimeMsgToEdgeServiceNever | application/src/test/java/org/thingsboard/server/controller/AbstractNotifyEntityTest.java:76-86 | synthetic ids for the entity and then the originator (the first missing one ends the scenario with UnknownEntityType); then edge never, audit many times and rule engine many times; only a pass empties the histories |
| NotifyEntity.NotifyFixture.NotifyEntityBroadcastEntityStateChangeEventOneTimeMsgToEdgeServiceNever | application/src/test/java/org/thingsboard/server/controller/AbstractNotifyEntityTest.java:88-96 | edge never, audit once, rule engine once and broadcast once, in that order; only a pass empties the histories |
| NotifyEntity.NotifyFixture.NotifyEntityOneTimeError | application/src/test/java/org/thingsboard/server/controller/AbstractNotifyEntityTest.java:98-122 | synthetic id of the entity (or UnknownEntityType); then edge never, the error-path audit check and rule engine never; the histories are never reset |
| NotifyEntity.NotifyFixture.NotifyEntityNever | application/src/test/java/org/thingsboard/server/controller/AbstractNotifyEntityTest.java:124-130 | the given id, or else the entity's synthetic id; then edge, audit and rule engine never; only a pass empties the histories |
| NotifyEntity.RecordCreation | application/src/test/java/org/thingsboard/server/controller/AbstractNotifyEntityTest.java:44-48 | recording the three notifications of a creation leaves exactly those calls in the spies' histories |
| NotifyEntity.CreatedNotificationsPassOneTimeChecks | application/src/test/java/org/thingsboard/server/controller/AbstractNotifyEntityTest.java:50-57 | the histories of a creation pass the edge, audit and rule-engine one-time checks and fail the audit "never" check |
| NotifyEntity.CreatedAuditOnce | application/src/test/java/org/thingsboard/server/controller/AbstractNotifyEntityTest.java:148-160 | one recorded audit call of a creation passes the one-time audit check |
| NotifyEntity.CreatedPushOnce | application/src/test/java/org/thingsboard/server/controller/AbstractNotifyEntityTest.java:176-184 | a creation's rule-engine message beside an edge call passes the one-time rule-engine check |
| NotifyEntity.DeviceCreatedPassesAllOneTime | application/src/test/java/org/thingsboard/server/controller/AbstractNotifyEntityTest.java:50-57 | the notifications of a created device pass the all-channels scenario, which leaves both histories empty |
| NotifyEntity.DeviceCreatedFailsEdgeOnly | application/src/test/java/org/thingsboard/server/controller/AbstractNotifyEntityTest.java:59-65 | the same notifications fail the edge-only scenario on its audit check, and all three recorded calls stay |
| TwoFactorAuthLogin.Ordinal | ui-ngx/src/app/modules/login/pages/login/two-factor-auth-login.component.ts:72 | each provider kind has its place in the enumeration order |
| TwoFactorAuthLogin.FindConfig | ui-ngx/src/app/modules/login/pages/login/two-factor-auth-login.component.ts:73 | a found configuration is of the requested kind |
| TwoFactorAuthLogin.FindConfigIsFirst | ui-ngx/src/app/modules/login/pages/login/two-factor-auth-login.component.ts:73 | `find` returns nothing exactly when no configuration has the kind, and otherwise the first one that has it |
| TwoFactorAuthLogin.Period | ui-ngx/src/app/modules/login/pages/login/two-factor-auth-login.component.ts:80 | `period \|\| 30`: a non-zero period is kept and 0 becomes 30, so the result is never 0 |
| TwoFactorAuthLogin.Allowed | ui-ngx/src/app/modules/login/pages/login/two-factor-auth-login.component.ts:72-84 | no more kinds are offered than are scanned |
| TwoFactorAuthLogin.AllowedMembers | ui-ngx/src/app/modules/login/pages/login/two-factor-auth-login.component.ts:72-84 | a kind is offered exactly when it is scanned and has a configuration |
| TwoFactorAuthLogin.LastDefaultIsLastFlagged | ui-ngx/src/app/modules/login/pages/login/two-factor-auth-login.component.ts:75-80 | the selected configuration is missing exactly when no scanned kind's first configuration is default-flagged; otherwise it is flagged, it is the first configuration of its kind, and no later scanned kind is flagged |
| TwoFactorAuthLogin.ScanStep | ui-ngx/src/app/modules/login/pages/login/two-factor-auth-login.component.ts:72-84 | scanning one more kind extends the offered list, the selection and the period as one loop iteration does |
| TwoFactorAuthLogin.ScanProviders | ui-ngx/src/app/modules/login/pages/login/two-factor-auth-login.component.ts:72-84 | the loop appends the offered kinds to the list, and leaves the selection and the period as the scan over all kinds in enumeration order defines them |
| TwoFactorAuthLogin.AllowedKeepsOrder | ui-ngx/src/app/modules/login/pages/login/two-factor-auth-login.component.ts:72-84 | the offered kinds of an increasing scan are increasing |
| TwoFactorAuthLogin.AllowedProvidersInEnumOrder | ui-ngx/src/app/modules/login/pages/login/two-factor-auth-login.component.ts:72-84 | the offered list holds exactly the configured kinds, in enumeration order, without duplicates |
| TwoFactorAuthLogin.LaterDuplicateFlagIgnored | ui-ngx/src/app/modules/login/pages/login/two-factor-auth-login.component.ts:73-76 | only the first configuration of a kind counts: a default flag on a later duplicate selects nothing |
| TwoFactorAuthLogin.ValidVerificationCode | ui-ngx/src/app/modules/login/pages/login/two-factor-auth-login.component.ts:53-60 | the code form is valid exactly when the code is six decimal digits |
| TwoFactorAuthLogin.Tick | ui-ngx/src/app/modules/login/pages/login/two-factor-auth-login.component.ts:141-148 | a running countdown drops by one and re-enables resend when it reaches 0; an expired or negative countdown and the button stay as they are |
| TwoFactorAuthLogin.CountdownReenablesResend | ui-ngx/src/app/modules/login/pages/login/two-factor-auth-login.component.ts:141-148 | after at least as many ticks as the countdown's positive value, the countdown is 0 and resend is enabled |
| TwoFactorAuthLogin.IdleTicks | ui-ngx/src/app/modules/login/pages/login/two-factor-auth-login.component.ts:141-148 | ticks change nothing once the countdown is 0 or below |
| TwoFactorAuthLogin.NegativePeriodNeverReenables | ui-ngx/src/app/modules/login/pages/login/two-factor-auth-login.component.ts:126 | a countdown started from a negative period (kept by `\|\| 30`, since it is not 0) leaves resend disabled however many ticks pass |
| TwoFactorAuthLogin.TwoFactorLogin.constructor | ui-ngx/src/app/modules/login/pages/login/two-factor-auth-login.component.ts:39-60 | the page starts with no providers and no selection, period 0, countdown 0, resend disabled and an empty code |
| TwoFactorAuthLogin.TwoFactorLogin.NgOnInit | ui-ngx/src/app/modules/login/pages/login/two-factor-auth-login.component.ts:70-89 | stores the configurations, appends the offered kinds, sets the selection and period from the scan, and requests a code (disabling resend) exactly when the selection is not TOTP; nothing else changes |
| TwoFactorAuthLogin.TwoFactorLogin.SendVerificationCode | ui-ngx/src/app/modules/login/pages/login/two-factor-auth-login.component.ts:96-102 | a check of (selected kind, code) is requested exactly when the code is valid and a kind is selected; nothing else changes |
| TwoFactorAuthLogin.TwoFactorLogin.SetVerificationCode | ui-ngx/src/app/modules/login/pages/login/two-factor-auth-login.component.ts:54 | editing the field changes only the code |
| TwoFactorAuthLogin.TwoFactorLogin.SelectProvider | ui-ngx/src/app/modules/login/pages/login/two-factor-auth-login.component.ts:104-118 | the previous kind is saved only when going back to the list; the selection becomes the argument; choosing a kind clears the code; a kind without a configuration throws after that, otherwise its period is taken and a code is requested unless it is TOTP |
| TwoFactorAuthLogin.TwoFactorLogin.SendCode | ui-ngx/src/app/modules/login/pages/login/two-factor-auth-login.component.ts:120-125 | resend is disabled and a code is requested for the current selection |
| TwoFactorAuthLogin.TwoFactorLogin.OnCodeSent | ui-ngx/src/app/modules/login/pages/login/two-factor-auth-login.component.ts:125-126 | the countdown starts from the provider's period |
| TwoFactorAuthLogin.TwoFactorLogin.OnCodeSendFailed | ui-ngx/src/app/modules/login/pages/login/two-factor-auth-login.component.ts:127-128 | the countdown starts from 30 |
| TwoFactorAuthLogin.TwoFactorLogin.CancelLogin | ui-ngx/src/app/modules/login/pages/login/two-factor-auth-login.component.ts:132-139 | with a saved kind, it is restored and forgotten; otherwise the user is logged out; nothing else changes |
| TwoFactorAuthLogin.TwoFactorLogin.UpdatedTime | ui-ngx/src/app/modules/login/pages/login/two-factor-auth-login.component.ts:141-148 | the countdown and button move by one `Tick`; nothing else changes |
| TwoFactorAuthLogin.BackThenCancel | ui-ngx/src/app/modules/login/pages/login/two-factor-auth-login.component.ts:104-139 | going back to the list and then cancelling restores the selected kind, without a logout or a code request |

The page methods also preserve `TwoFactorLogin.Valid()`; `NgOnInit` preserves it when no previous kind is saved, as at page start. It says two things:

- A saved kind exists only while no kind is selected.
- Only valid codes are submitted for checking.

## Left out

**The notification test fixture**

- Mockito's proxies, stubbing and failure messages are left out. A failed verification is only `Mismatch(op)` naming the channel.
- Varargs are matched as an expanded argument list, and the length must match exactly, except on the error path (see `ErrorAuditMatchers` below). This is why the eight-matcher audit "never" check does not see nine-argument calls.
- `any(Class)` is modelled as "non-null and of exactly that class". Subclasses of the expected class are not modelled, because ids and entities are compared by their concrete class.
- Null entity, entity id and originator arguments are left out: the scenarios take them as values. The source compares some of them only with `eq`, where a null is accepted: the entity at lines 54, 71 and 92, the entity id at line 53 and first at line 61, the originator at lines 54-55, 71-72 and 92-93. Others it asks for their class, where a null makes it throw: lines 62, 70, 79-80, 91, 102, 125 and 127.
- ExtractParameter models absent varargs as `None`.
- NotifyEntity.LogEntityActionOneTimeError: exception messages are modelled as strings, never null, and the error matcher rejects a null error argument. Java's `argThat` lambdas at lines 110 and 118 throw a `NullPointerException` in three cases: the recorded error argument is null, its message is null, or the expected exception's message is null. That ends the scenario with an error. The lambda runs once the first seven arguments of a recorded call match, so in the first case the model can report Pass where Java errors.
- NotifyEntity.ErrorAuditMatchers: `Mockito.eq(additionalInfo)` at line 111 is read as element-wise equality of the whole vararg tail, so the check accepts calls of 8 + |additionalInfo| arguments. Mockito's own treatment of an array matcher in the varargs position is not modelled.
- ToUpperCase maps only ASCII letters. Locale-specific case mapping is left out; class names are ASCII.
- The `EntityType` enum and `ModelConstants.NULL_UUID` are not part of this model. The model assumes their constant names and the null UUID text.
- The contents of `TbMsg` messages and lifecycle events are left out: they are matched only by their class.
- `edgeTypeByActionType` of `DefaultTbNotificationEntityService` is not part of this model. It is a parameter of the fixture.
- The Spring context and the web test base class are left out.

**The two-factor login page**

- Angular's dependency injection, the template, translation and `providerDescription` are left out.
- The `interval(1000)` subscription is left out. Each tick is a call of `UpdatedTime`. `ngOnDestroy` and unsubscribing are left out.
- HTTP calls are modelled as appends to `codeRequests` and `checkRequests`. Their answers arrive as `OnCodeSent` or `OnCodeSendFailed`.
- Logging out is a counter.
- `$event.stopPropagation()` in `sendCode` is left out.
- TwoFactorAuthLogin.Period: an undefined `minVerificationCodeSendPeriod` is folded into 0, which `|| 30` also turns into 30.
- TwoFactorAuthLogin.TwoFactorLogin.SelectProvider: the form's `reset()` restores `null`, modelled as the empty code. Both are invalid and both fail `required`.
- TwoFactorAuthLogin.ScanProviders: the scan accumulates the offered kinds and the selection in locals and stores them once. No part-way state of the page is visible during the scan.
- Provider kinds are the four of `TwoFactorAuthProviderType`. The enumeration file is not part of this model.
