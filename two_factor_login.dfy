/**
 * The two-factor login page of the web client: which second-factor
 * providers the user may choose from, which one is selected, the
 * verification-code form and the countdown that re-enables the
 * "resend code" button.  HTTP requests, the logout call and the
 * one-second timer are not executed here: a request is recorded in a
 * log field, its answer arrives as a method call, and a timer tick is a
 * call of UpdatedTime.
 */
module TwoFactorAuthLogin {
  import opened Wrappers

  /** The provider kinds, in the declaration order of their enumeration. */
  datatype ProviderType = TOTP | SMS | EMAIL | BACKUP_CODE

  const ProviderTypes: seq<ProviderType> := [TOTP, SMS, EMAIL, BACKUP_CODE]

  function Ordinal(t: ProviderType): (n: nat)
    ensures n < |ProviderTypes| && ProviderTypes[n] == t
  {
    match t
    case TOTP => 0
    case SMS => 1
    case EMAIL => 2
    case BACKUP_CODE => 3
  }

  /** What the server reports about one provider the user has configured. */
  datatype ProviderInfo = ProviderInfo(kind: ProviderType, isDefault: bool, contact: string,
                                       minVerificationCodeSendPeriod: int)

  /** The fallback resend period, in seconds. */
  const DefaultPeriod: int := 30

  /**
   * The first configuration of the given kind, as Array.prototype.find
   * returns it.
   */
  function FindConfig(infos: seq<ProviderInfo>, t: ProviderType): (r: Option<ProviderInfo>)
    ensures r.Some? ==> r.value.kind == t
  {
    if infos == [] then None
    else if infos[0].kind == t then Some(infos[0])
    else FindConfig(infos[1..], t)
  }

  /** FindConfig fails only when no configuration has the kind, and otherwise finds the first. */
  lemma {:induction false} FindConfigIsFirst(infos: seq<ProviderInfo>, t: ProviderType)
    ensures FindConfig(infos, t).None? <==> forall k :: 0 <= k < |infos| ==> infos[k].kind != t
    ensures FindConfig(infos, t).Some? ==>
              exists k :: 0 <= k < |infos| && infos[k] == FindConfig(infos, t).value &&
                          forall j :: 0 <= j < k ==> infos[j].kind != t
  {
    if infos != [] && infos[0].kind != t {
      var rest := infos[1..];
      FindConfigIsFirst(rest, t);
      assert forall k :: 1 <= k < |infos| ==> infos[k] == rest[k - 1];
      if FindConfig(rest, t).Some? {
        var k :| 0 <= k < |rest| && rest[k] == FindConfig(rest, t).value &&
                 forall j :: 0 <= j < k ==> rest[j].kind != t;
        assert infos[k + 1] == FindConfig(infos, t).value;
      }
    } else if infos != [] {
      assert infos[0] == FindConfig(infos, t).value;
    }
  }

  /**
   * The resend period taken from a configuration: the configured value
   * unless it is 0 (falsy in the client), then 30 seconds.
   */
  function Period(c: ProviderInfo): (r: int)
    ensures r != 0
    ensures c.minVerificationCodeSendPeriod != 0 ==> r == c.minVerificationCodeSendPeriod
    ensures c.minVerificationCodeSendPeriod == 0 ==> r == DefaultPeriod
  {
    if c.minVerificationCodeSendPeriod != 0 then c.minVerificationCodeSendPeriod else DefaultPeriod
  }

  /** The kinds among ts that have a configuration, in the order of ts. */
  function Allowed(ts: seq<ProviderType>, infos: seq<ProviderInfo>): (r: seq<ProviderType>)
    ensures |r| <= |ts|
  {
    if ts == [] then []
    else
      var last := ts[|ts| - 1];
      Allowed(ts[..|ts| - 1], infos) + (if FindConfig(infos, last).Some? then [last] else [])
  }

  /** The offered kinds are exactly the configured kinds of ts. */
  lemma {:induction false} AllowedMembers(ts: seq<ProviderType>, infos: seq<ProviderInfo>)
    ensures forall t :: t in Allowed(ts, infos) <==> t in ts && FindConfig(infos, t).Some?
  {
    if ts != [] {
      AllowedMembers(ts[..|ts| - 1], infos);
      assert ts == ts[..|ts| - 1] + [ts[|ts| - 1]];
    }
  }

  /** Whether the configuration found for t carries the default flag. */
  predicate FlaggedDefault(infos: seq<ProviderInfo>, t: ProviderType)
  {
    FindConfig(infos, t).Some? && FindConfig(infos, t).value.isDefault
  }

  /**
   * The configuration the scan over ts selects: that of the last kind in
   * ts whose found configuration is flagged default.
   */
  function LastDefault(ts: seq<ProviderType>, infos: seq<ProviderInfo>): Option<ProviderInfo>
  {
    if ts == [] then None
    else
      var last := ts[|ts| - 1];
      if FlaggedDefault(infos, last) then FindConfig(infos, last)
      else LastDefault(ts[..|ts| - 1], infos)
  }

  /**
   * The scan selects nothing exactly when no kind of ts is flagged default;
   * otherwise it selects the found, flagged configuration of a kind of ts
   * after which no kind is flagged.
   */
  lemma {:induction false} LastDefaultIsLastFlagged(ts: seq<ProviderType>, infos: seq<ProviderInfo>)
    ensures LastDefault(ts, infos).None? <==> forall j :: 0 <= j < |ts| ==> !FlaggedDefault(infos, ts[j])
    ensures LastDefault(ts, infos).Some? ==>
              LastDefault(ts, infos).value.isDefault &&
              FindConfig(infos, LastDefault(ts, infos).value.kind) == LastDefault(ts, infos)
    ensures LastDefault(ts, infos).Some? ==>
              exists i :: 0 <= i < |ts| && ts[i] == LastDefault(ts, infos).value.kind &&
                          forall j :: i < j < |ts| ==> !FlaggedDefault(infos, ts[j])
  {
    if ts != [] {
      var pre := ts[..|ts| - 1];
      var last := ts[|ts| - 1];
      if FlaggedDefault(infos, last) {
        assert ts[|ts| - 1] == LastDefault(ts, infos).value.kind;
      } else {
        LastDefaultIsLastFlagged(pre, infos);
        assert forall j :: 0 <= j < |pre| ==> ts[j] == pre[j];
      }
    }
  }

  /** The selection after scanning ts, starting from the selection sel. */
  function ScanSelected(ts: seq<ProviderType>, infos: seq<ProviderInfo>, sel: Option<ProviderType>): Option<ProviderType>
  {
    if LastDefault(ts, infos).Some? then Some(LastDefault(ts, infos).value.kind) else sel
  }

  /** The resend period after scanning ts, starting from the period p. */
  function ScanPeriod(ts: seq<ProviderType>, infos: seq<ProviderInfo>, p: int): int
  {
    if LastDefault(ts, infos).Some? then Period(LastDefault(ts, infos).value) else p
  }

  /** How one more kind extends the scan of the enumeration. */
  lemma ScanStep(i: nat, infos: seq<ProviderInfo>, sel: Option<ProviderType>, p: int)
    requires i < |ProviderTypes|
    ensures Allowed(ProviderTypes[..i + 1], infos) == Allowed(ProviderTypes[..i], infos) +
              (if FindConfig(infos, ProviderTypes[i]).Some? then [ProviderTypes[i]] else [])
    ensures ScanSelected(ProviderTypes[..i + 1], infos, sel) ==
              if FlaggedDefault(infos, ProviderTypes[i]) then Some(ProviderTypes[i])
              else ScanSelected(ProviderTypes[..i], infos, sel)
    ensures ScanPeriod(ProviderTypes[..i + 1], infos, p) ==
              if FlaggedDefault(infos, ProviderTypes[i]) then Period(FindConfig(infos, ProviderTypes[i]).value)
              else ScanPeriod(ProviderTypes[..i], infos, p)
  {
    assert ProviderTypes[..i + 1][..i] == ProviderTypes[..i];
  }

  /**
   * The forEach over the provider kinds in ngOnInit, starting from the
   * offered list, selection and resend period given: every configured kind
   * is pushed onto the list, and a default-flagged one becomes the
   * selection and sets the period.  The component stores the results into
   * its fields; nothing else runs during the scan.
   */
  method ScanProviders(infos: seq<ProviderInfo>, allow0: seq<ProviderType>, selected0: Option<ProviderType>, period0: int)
    returns (allow: seq<ProviderType>, selected: Option<ProviderType>, period: int)
    ensures allow == allow0 + Allowed(ProviderTypes, infos)
    ensures selected == ScanSelected(ProviderTypes, infos, selected0)
    ensures period == ScanPeriod(ProviderTypes, infos, period0)
  {
    allow, selected, period := allow0, selected0, period0;
    var i := 0;
    while i < |ProviderTypes|
      invariant 0 <= i <= |ProviderTypes|
      invariant allow == allow0 + Allowed(ProviderTypes[..i], infos)
      invariant selected == ScanSelected(ProviderTypes[..i], infos, selected0)
      invariant period == ScanPeriod(ProviderTypes[..i], infos, period0)
    {
      var provider := ProviderTypes[i];
      ScanStep(i, infos, selected0, period0);
      var providerConfig := FindConfig(infos, provider);
      if providerConfig.Some? {
        if providerConfig.value.isDefault {
          selected := Some(providerConfig.value.kind);
          period := Period(providerConfig.value);
        }
        allow := allow + [providerConfig.value.kind];
      }
      i := i + 1;
    }
    assert ProviderTypes[..i] == ProviderTypes;
  }

  predicate StrictlyIncreasing(ts: seq<ProviderType>)
  {
    forall i, j :: 0 <= i < j < |ts| ==> Ordinal(ts[i]) < Ordinal(ts[j])
  }

  /** Filtering keeps an increasing sequence increasing. */
  lemma {:induction false} AllowedKeepsOrder(ts: seq<ProviderType>, infos: seq<ProviderInfo>)
    requires StrictlyIncreasing(ts)
    ensures StrictlyIncreasing(Allowed(ts, infos))
  {
    if ts != [] {
      var pre := ts[..|ts| - 1];
      var last := ts[|ts| - 1];
      assert StrictlyIncreasing(pre) by {
        assert forall i :: 0 <= i < |pre| ==> pre[i] == ts[i];
      }
      AllowedKeepsOrder(pre, infos);
      AllowedMembers(pre, infos);
      var a := Allowed(pre, infos);
      forall i | 0 <= i < |a|
        ensures Ordinal(a[i]) < Ordinal(last)
      {
        assert a[i] in pre;
        var k :| 0 <= k < |pre| && pre[k] == a[i];
        assert ts[k] == a[i];
      }
    }
  }

  /**
   * The providers offered after the scan are exactly the configured kinds,
   * in enumeration order and hence without duplicates.
   */
  lemma AllowedProvidersInEnumOrder(infos: seq<ProviderInfo>)
    ensures forall t :: t in Allowed(ProviderTypes, infos) <==> FindConfig(infos, t).Some?
    ensures StrictlyIncreasing(Allowed(ProviderTypes, infos))
    ensures forall i, j :: 0 <= i < j < |Allowed(ProviderTypes, infos)| ==>
              Allowed(ProviderTypes, infos)[i] != Allowed(ProviderTypes, infos)[j]
  {
    forall t ensures t in ProviderTypes { assert ProviderTypes[Ordinal(t)] == t; }
    AllowedMembers(ProviderTypes, infos);
    AllowedKeepsOrder(ProviderTypes, infos);
  }

  /**
   * Only the first configuration of a kind is looked at: a default flag on
   * a later configuration of the same kind selects nothing.
   */
  lemma LaterDuplicateFlagIgnored(contact: string)
    ensures LastDefault(ProviderTypes, [ProviderInfo(SMS, false, contact, 0), ProviderInfo(SMS, true, contact, 0)]).None?
  {
    var infos := [ProviderInfo(SMS, false, contact, 0), ProviderInfo(SMS, true, contact, 0)];
    assert FindConfig(infos, SMS) == Some(infos[0]);
    FindConfigIsFirst(infos, TOTP);
    FindConfigIsFirst(infos, EMAIL);
    FindConfigIsFirst(infos, BACKUP_CODE);
    LastDefaultIsLastFlagged(ProviderTypes, infos);
  }

  // ---------------------------------------------------------------------------
  // The verification-code form control
  // ---------------------------------------------------------------------------

  predicate IsDigit(ch: char) { '0' <= ch <= '9' }

  /** Validators.required on a string value. */
  predicate Required(s: string) { |s| > 0 }

  /** Validators.minLength(n): an empty value is left to Validators.required. */
  predicate MinLength(n: nat, s: string) { |s| == 0 || |s| >= n }

  /** Validators.maxLength(n). */
  predicate MaxLength(n: nat, s: string) { |s| <= n }

  /** Validators.pattern(/^\d*$/): an empty value is left to Validators.required. */
  predicate DigitsPattern(s: string) { |s| == 0 || forall k :: 0 <= k < |s| ==> IsDigit(s[k]) }

  /** The form is valid when all four validators of the control accept it. */
  function ValidVerificationCode(s: string): (r: bool)
    ensures r <==> |s| == 6 && forall k :: 0 <= k < |s| ==> IsDigit(s[k])
  {
    Required(s) && MinLength(6, s) && MaxLength(6, s) && DigitsPattern(s)
  }

  // ---------------------------------------------------------------------------
  // The resend countdown
  // ---------------------------------------------------------------------------

  datatype ResendTimer = ResendTimer(countDownTime: int, disabledResendButton: bool)

  /** One timer tick: count down while positive; reaching 0 re-enables resend. */
  function Tick(s: ResendTimer): (r: ResendTimer)
    ensures s.countDownTime > 0 ==> r.countDownTime == s.countDownTime - 1
    ensures s.countDownTime <= 0 ==> r == s
    ensures s.countDownTime >= 0 ==> r.countDownTime >= 0
    ensures s.countDownTime == 1 ==> !r.disabledResendButton
    ensures s.countDownTime != 1 ==> r.disabledResendButton == s.disabledResendButton
  {
    if s.countDownTime > 0 then
      var c := s.countDownTime - 1;
      ResendTimer(c, if c == 0 then false else s.disabledResendButton)
    else s
  }

  function Ticks(s: ResendTimer, k: nat): ResendTimer
    decreases k
  {
    if k == 0 then s else Ticks(Tick(s), k - 1)
  }

  /**
   * After at least as many ticks as the countdown shows, the countdown is
   * 0 and resending is enabled again.
   */
  lemma {:induction false} CountdownReenablesResend(s: ResendTimer, k: nat)
    requires s.countDownTime > 0 && k >= s.countDownTime
    ensures Ticks(s, k) == ResendTimer(0, false)
    decreases k
  {
    if s.countDownTime == 1 {
      IdleTicks(Tick(s), k - 1);
    } else {
      CountdownReenablesResend(Tick(s), k - 1);
    }
  }

  /** Once the countdown is not positive, ticks change nothing. */
  lemma {:induction false} IdleTicks(s: ResendTimer, k: nat)
    requires s.countDownTime <= 0
    ensures Ticks(s, k) == s
  {
    if k > 0 {
      IdleTicks(Tick(s), k - 1);
    }
  }

  /**
   * A negative resend period is kept by the client (it is truthy) and
   * leaves the resend button disabled for every number of ticks.
   */
  lemma NegativePeriodNeverReenables(period: int, k: nat)
    requires period < 0
    ensures Ticks(ResendTimer(period, true), k).disabledResendButton
  {
    IdleTicks(ResendTimer(period, true), k);
  }

  // ---------------------------------------------------------------------------
  // The component
  // ---------------------------------------------------------------------------

  /**
   * The component state.  The request logs stand for the calls the
   * component makes to the server and to the authentication service:
   * codeRequests holds the provider of each "send a code" request,
   * checkRequests each (provider, code) pair submitted for checking and
   * logouts the number of logout calls.
   */
  class TwoFactorLogin {
    var providersInfo: seq<ProviderInfo>
    var prevProvider: Option<ProviderType>
    var selectedProvider: Option<ProviderType>
    var allowProviders: seq<ProviderType>
    var minVerificationPeriod: int
    var countDownTime: int
    var disabledResendButton: bool
    var verificationCode: string
    var codeRequests: seq<Option<ProviderType>>
    var checkRequests: seq<(ProviderType, string)>
    var logouts: nat

    /**
     * A saved provider exists only while the choice screen is shown (no
     * selection), and only valid codes are ever submitted.
     */
    ghost predicate Valid()
      reads this
    {
      (prevProvider.Some? ==> selectedProvider.None?) &&
      forall k :: 0 <= k < |checkRequests| ==> ValidVerificationCode(checkRequests[k].1)
    }

    function Timer(): ResendTimer
      reads this
    {
      ResendTimer(countDownTime, disabledResendButton)
    }

    constructor ()
      ensures Valid()
      ensures providersInfo == [] && prevProvider.None? && selectedProvider.None?
      ensures allowProviders == [] && minVerificationPeriod == 0
      ensures countDownTime == 0 && disabledResendButton
      ensures verificationCode == "" && codeRequests == [] && checkRequests == [] && logouts == 0
    {
      providersInfo := [];
      prevProvider := None;
      selectedProvider := None;
      allowProviders := [];
      minVerificationPeriod := 0;
      countDownTime := 0;
      disabledResendButton := true;
      verificationCode := "";
      codeRequests := [];
      checkRequests := [];
      logouts := 0;
    }

    /**
     * Initialisation: scan the provider kinds in enumeration order, offer
     * each configured one, select the default-flagged ones (the last wins)
     * and ask for a code unless the selection is TOTP.
     */
    method NgOnInit(infos: seq<ProviderInfo>)
      modifies this
      ensures providersInfo == infos
      ensures allowProviders == old(allowProviders) + Allowed(ProviderTypes, infos)
      ensures selectedProvider == ScanSelected(ProviderTypes, infos, old(selectedProvider))
      ensures minVerificationPeriod == ScanPeriod(ProviderTypes, infos, old(minVerificationPeriod))
      ensures selectedProvider != Some(TOTP) ==>
                codeRequests == old(codeRequests) + [selectedProvider] && disabledResendButton
      ensures selectedProvider == Some(TOTP) ==>
                codeRequests == old(codeRequests) && disabledResendButton == old(disabledResendButton)
      ensures prevProvider == old(prevProvider) && countDownTime == old(countDownTime)
      ensures verificationCode == old(verificationCode) && checkRequests == old(checkRequests)
      ensures logouts == old(logouts)
      ensures old(prevProvider).None? && old(Valid()) ==> Valid()
    {
      providersInfo := infos;
      allowProviders, selectedProvider, minVerificationPeriod :=
        ScanProviders(infos, allowProviders, selectedProvider, minVerificationPeriod);
      if selectedProvider != Some(TOTP) {
        SendCode();
      }
    }

    /**
     * Submit the code for checking, provided the form is valid and a
     * provider is selected; otherwise nothing happens.
     */
    method SendVerificationCode()
      modifies this
      ensures ValidVerificationCode(verificationCode) && selectedProvider.Some? ==>
                checkRequests == old(checkRequests) + [(selectedProvider.value, verificationCode)]
      ensures !(ValidVerificationCode(verificationCode) && selectedProvider.Some?) ==>
                checkRequests == old(checkRequests)
      ensures providersInfo == old(providersInfo) && prevProvider == old(prevProvider)
      ensures selectedProvider == old(selectedProvider) && allowProviders == old(allowProviders)
      ensures minVerificationPeriod == old(minVerificationPeriod) && Timer() == old(Timer())
      ensures verificationCode == old(verificationCode) && codeRequests == old(codeRequests)
      ensures logouts == old(logouts)
      ensures old(Valid()) ==> Valid()
    {
      if ValidVerificationCode(verificationCode) && selectedProvider.Some? {
        checkRequests := checkRequests + [(selectedProvider.value, verificationCode)];
      }
    }

    /** The user edits the code field. */
    method SetVerificationCode(s: string)
      modifies this
      ensures verificationCode == s
      ensures providersInfo == old(providersInfo) && prevProvider == old(prevProvider)
      ensures selectedProvider == old(selectedProvider) && allowProviders == old(allowProviders)
      ensures minVerificationPeriod == old(minVerificationPeriod) && Timer() == old(Timer())
      ensures codeRequests == old(codeRequests) && checkRequests == old(checkRequests)
      ensures logouts == old(logouts)
      ensures old(Valid()) ==> Valid()
    {
      verificationCode := s;
    }

    /**
     * Choose a provider, or None to go back to the list of providers (the
     * current choice is then saved).  thrown is true when the chosen kind
     * has no configuration: the client then fails on the missing
     * configuration after the selection has already changed and the code
     * field has been cleared.
     */
    method SelectProvider(t: Option<ProviderType>) returns (thrown: bool)
      modifies this
      ensures prevProvider == (if t.None? then old(selectedProvider) else None)
      ensures selectedProvider == t
      ensures thrown <==> t.Some? && FindConfig(providersInfo, t.value).None?
      ensures t.Some? ==> verificationCode == ""
      ensures t.None? ==> verificationCode == old(verificationCode)
      ensures t.Some? && !thrown ==> minVerificationPeriod == Period(FindConfig(providersInfo, t.value).value)
      ensures t.None? || thrown ==> minVerificationPeriod == old(minVerificationPeriod)
      ensures t.Some? && !thrown && t != Some(TOTP) ==>
                codeRequests == old(codeRequests) + [t] && disabledResendButton
      ensures !(t.Some? && !thrown && t != Some(TOTP)) ==>
                codeRequests == old(codeRequests) && disabledResendButton == old(disabledResendButton)
      ensures providersInfo == old(providersInfo) && allowProviders == old(allowProviders)
      ensures countDownTime == old(countDownTime) && checkRequests == old(checkRequests)
      ensures logouts == old(logouts)
      ensures old(Valid()) ==> Valid()
    {
      prevProvider := if t.None? then selectedProvider else None;
      selectedProvider := t;
      thrown := false;
      if t.Some? {
        verificationCode := "";
        var providerConfig := FindConfig(providersInfo, t.value);
        if providerConfig.None? {
          thrown := true;
          return;
        }
        minVerificationPeriod := Period(providerConfig.value);
        if t.value != TOTP {
          SendCode();
        }
      }
    }

    /**
     * Ask the server for a new code for the selected provider; the resend
     * button is disabled until the answer's countdown has run out.
     */
    method SendCode()
      modifies this
      ensures disabledResendButton
      ensures codeRequests == old(codeRequests) + [selectedProvider]
      ensures providersInfo == old(providersInfo) && prevProvider == old(prevProvider)
      ensures selectedProvider == old(selectedProvider) && allowProviders == old(allowProviders)
      ensures minVerificationPeriod == old(minVerificationPeriod) && countDownTime == old(countDownTime)
      ensures verificationCode == old(verificationCode) && checkRequests == old(checkRequests)
      ensures logouts == old(logouts)
      ensures old(Valid()) ==> Valid()
    {
      disabledResendButton := true;
      codeRequests := codeRequests + [selectedProvider];
    }

    /** The server accepted the request: count down the provider's period. */
    method OnCodeSent()
      modifies this
      ensures countDownTime == minVerificationPeriod
      ensures disabledResendButton == old(disabledResendButton)
      ensures providersInfo == old(providersInfo) && prevProvider == old(prevProvider)
      ensures selectedProvider == old(selectedProvider) && allowProviders == old(allowProviders)
      ensures minVerificationPeriod == old(minVerificationPeriod)
      ensures verificationCode == old(verificationCode) && codeRequests == old(codeRequests)
      ensures checkRequests == old(checkRequests) && logouts == old(logouts)
      ensures old(Valid()) ==> Valid()
    {
      countDownTime := minVerificationPeriod;
    }

    /** The request failed: count down the fallback period. */
    method OnCodeSendFailed()
      modifies this
      ensures countDownTime == DefaultPeriod
      ensures disabledResendButton == old(disabledResendButton)
      ensures providersInfo == old(providersInfo) && prevProvider == old(prevProvider)
      ensures selectedProvider == old(selectedProvider) && allowProviders == old(allowProviders)
      ensures minVerificationPeriod == old(minVerificationPeriod)
      ensures verificationCode == old(verificationCode) && codeRequests == old(codeRequests)
      ensures checkRequests == old(checkRequests) && logouts == old(logouts)
      ensures old(Valid()) ==> Valid()
    {
      countDownTime := DefaultPeriod;
    }

    /**
     * Cancel: back to the saved provider if there is one, otherwise log
     * out.
     */
    method CancelLogin()
      modifies this
      ensures old(prevProvider).Some? ==>
                selectedProvider == old(prevProvider) && prevProvider.None? && logouts == old(logouts)
      ensures old(prevProvider).None? ==>
                selectedProvider == old(selectedProvider) && prevProvider.None? && logouts == old(logouts) + 1
      ensures providersInfo == old(providersInfo) && allowProviders == old(allowProviders)
      ensures minVerificationPeriod == old(minVerificationPeriod) && Timer() == old(Timer())
      ensures verificationCode == old(verificationCode) && codeRequests == old(codeRequests)
      ensures checkRequests == old(checkRequests)
      ensures old(Valid()) ==> Valid()
    {
      if prevProvider.Some? {
        selectedProvider := prevProvider;
        prevProvider := None;
      } else {
        logouts := logouts + 1;
      }
    }

    /** One tick of the one-second timer. */
    method UpdatedTime()
      modifies this
      ensures Timer() == Tick(old(Timer()))
      ensures providersInfo == old(providersInfo) && prevProvider == old(prevProvider)
      ensures selectedProvider == old(selectedProvider) && allowProviders == old(allowProviders)
      ensures minVerificationPeriod == old(minVerificationPeriod)
      ensures verificationCode == old(verificationCode) && codeRequests == old(codeRequests)
      ensures checkRequests == old(checkRequests) && logouts == old(logouts)
      ensures old(Valid()) ==> Valid()
    {
      if countDownTime > 0 {
        countDownTime := countDownTime - 1;
        if countDownTime == 0 {
          disabledResendButton := false;
        }
      }
    }
  }

  /**
   * Going back to the provider list and then cancelling returns to the
   * provider that was selected, without logging out.
   */
  method BackThenCancel(page: TwoFactorLogin, t: ProviderType)
    requires page.selectedProvider == Some(t)
    modifies page
    ensures page.selectedProvider == Some(t) && page.prevProvider.None?
    ensures page.logouts == old(page.logouts) && page.codeRequests == old(page.codeRequests)
  {
    var thrown := page.SelectProvider(None);
    page.CancelLogin();
  }
}
