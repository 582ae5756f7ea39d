/**
 * The license service's queries. Every one of them reads the fixed table
 * `LicenseTable.Features`; none changes any state, so each is a function.
 * The key names and the unlimited sentinel come in as `LicenseConstants`
 * parameters, and clock readings (`new Date()`) as `Instant` parameters.
 */
module License {
  import opened JsValues
  import opened LicenseConstants
  import opened LicenseTable
  import opened Entitlements

  // ---------------------------------------------------------------------------
  // Feature flags

  /**
   * `isFeatureEnabled(feature)`: the table's entry for `feature`, unconverted
   * (the `as boolean` cast only informs the type checker), `undefined` when
   * the key is missing.
   */
  function IsFeatureEnabled(feature: string): (r: Option<Value>)
    ensures r == None <==> feature !in Features
    ensures r.Some? ==> r.value == Features[feature]
    ensures feature in Features && IsFlagKey(feature) ==> r == Some(Bool(feature != NonProdBannerKey))
    ensures r == Some(Bool(true)) <==> feature in EnabledFlags
    ensures r == Some(Bool(false)) <==> feature == NonProdBannerKey
  {
    FlagEntries();
    BooleanEntries();
    Lookup(Features, feature)
  }

  /** `isSharingEnabled()` */
  function IsSharingEnabled(names: LicenseFeatures): (r: Option<Value>)
    ensures names.sharing == "feat:sharing" ==> r == Some(Bool(true))
  {
    IsFeatureEnabled(names.sharing)
  }

  /** `isLogStreamingEnabled()` */
  function IsLogStreamingEnabled(names: LicenseFeatures): (r: Option<Value>)
    ensures names.logStreaming == "feat:logStreaming" ==> r == Some(Bool(true))
  {
    IsFeatureEnabled(names.logStreaming)
  }

  /** `isLdapEnabled()` */
  function IsLdapEnabled(names: LicenseFeatures): (r: Option<Value>)
    ensures names.ldap == "feat:ldap" ==> r == Some(Bool(true))
  {
    IsFeatureEnabled(names.ldap)
  }

  /** `isSamlEnabled()` */
  function IsSamlEnabled(names: LicenseFeatures): (r: Option<Value>)
    ensures names.saml == "feat:saml" ==> r == Some(Bool(true))
  {
    IsFeatureEnabled(names.saml)
  }

  /** `isAdvancedExecutionFiltersEnabled()` */
  function IsAdvancedExecutionFiltersEnabled(names: LicenseFeatures): (r: Option<Value>)
    ensures names.advancedExecutionFilters == "feat:advancedExecutionFilters" ==> r == Some(Bool(true))
  {
    IsFeatureEnabled(names.advancedExecutionFilters)
  }

  /** `isAdvancedPermissionsLicensed()` */
  function IsAdvancedPermissionsLicensed(names: LicenseFeatures): (r: Option<Value>)
    ensures names.advancedPermissions == "feat:advancedPermissions" ==> r == Some(Bool(true))
  {
    IsFeatureEnabled(names.advancedPermissions)
  }

  /** `isDebugInEditorLicensed()` */
  function IsDebugInEditorLicensed(names: LicenseFeatures): (r: Option<Value>)
    ensures names.debugInEditor == "feat:debugInEditor" ==> r == Some(Bool(true))
  {
    IsFeatureEnabled(names.debugInEditor)
  }

  /** `isBinaryDataS3Licensed()` */
  function IsBinaryDataS3Licensed(names: LicenseFeatures): (r: Option<Value>)
    ensures names.binaryDataS3 == "feat:binaryDataS3" ==> r == Some(Bool(true))
  {
    IsFeatureEnabled(names.binaryDataS3)
  }

  /** `isMultipleMainInstancesLicensed()` */
  function IsMultipleMainInstancesLicensed(names: LicenseFeatures): (r: Option<Value>)
    ensures names.multipleMainInstances == "feat:multipleMainInstances" ==> r == Some(Bool(true))
  {
    IsFeatureEnabled(names.multipleMainInstances)
  }

  /** `isVariablesEnabled()` */
  function IsVariablesEnabled(names: LicenseFeatures): (r: Option<Value>)
    ensures names.variables == "feat:variables" ==> r == Some(Bool(true))
  {
    IsFeatureEnabled(names.variables)
  }

  /** `isSourceControlLicensed()` */
  function IsSourceControlLicensed(names: LicenseFeatures): (r: Option<Value>)
    ensures names.sourceControl == "feat:sourceControl" ==> r == Some(Bool(true))
  {
    IsFeatureEnabled(names.sourceControl)
  }

  /** `isExternalSecretsEnabled()` */
  function IsExternalSecretsEnabled(names: LicenseFeatures): (r: Option<Value>)
    ensures names.externalSecrets == "feat:externalSecrets" ==> r == Some(Bool(true))
  {
    IsFeatureEnabled(names.externalSecrets)
  }

  /** `isWorkflowHistoryLicensed()` */
  function IsWorkflowHistoryLicensed(names: LicenseFeatures): (r: Option<Value>)
    ensures names.workflowHistory == "feat:workflowHistory" ==> r == Some(Bool(true))
  {
    IsFeatureEnabled(names.workflowHistory)
  }

  /** `isAPIDisabled()`: the table sets `feat:apiDisabled`, so the public API reads as disabled. */
  function IsApiDisabled(names: LicenseFeatures): (r: Option<Value>)
    ensures names.apiDisabled == "feat:apiDisabled" ==> r == Some(Bool(true))
  {
    IsFeatureEnabled(names.apiDisabled)
  }

  /** `isWorkerViewLicensed()` */
  function IsWorkerViewLicensed(names: LicenseFeatures): (r: Option<Value>)
    ensures names.workerView == "feat:workerView" ==> r == Some(Bool(true))
  {
    IsFeatureEnabled(names.workerView)
  }

  /** The table key each named check reads, in the order the checks are declared. */
  function CheckedKeys(names: LicenseFeatures): seq<string>
  {
    [ names.sharing, names.logStreaming, names.ldap, names.saml,
      names.advancedExecutionFilters, names.advancedPermissions, names.debugInEditor,
      names.binaryDataS3, names.multipleMainInstances, names.variables,
      names.sourceControl, names.externalSecrets, names.workflowHistory,
      names.apiDisabled, names.workerView ]
  }

  /** The value of the `i`-th named check, in the order of `CheckedKeys`. */
  function NamedCheck(names: LicenseFeatures, i: nat): Option<Value>
    requires i < 15
  {
    match i
    case 0 => IsSharingEnabled(names)
    case 1 => IsLogStreamingEnabled(names)
    case 2 => IsLdapEnabled(names)
    case 3 => IsSamlEnabled(names)
    case 4 => IsAdvancedExecutionFiltersEnabled(names)
    case 5 => IsAdvancedPermissionsLicensed(names)
    case 6 => IsDebugInEditorLicensed(names)
    case 7 => IsBinaryDataS3Licensed(names)
    case 8 => IsMultipleMainInstancesLicensed(names)
    case 9 => IsVariablesEnabled(names)
    case 10 => IsSourceControlLicensed(names)
    case 11 => IsExternalSecretsEnabled(names)
    case 12 => IsWorkflowHistoryLicensed(names)
    case 13 => IsApiDisabled(names)
    case _ => IsWorkerViewLicensed(names)
  }

  /** Each named check is `isFeatureEnabled` of its one constant, whatever the constants are. */
  lemma NamedChecksDelegate(names: LicenseFeatures)
    ensures |CheckedKeys(names)| == 15
    ensures forall i :: 0 <= i < 15 ==> NamedCheck(names, i) == IsFeatureEnabled(CheckedKeys(names)[i])
  {
  }

  /**
   * With the conventional key names, the named checks read exactly the
   * table's enabled flags, and every one of them answers `true`.
   */
  lemma NamedChecksCoverEnabledFlags(names: LicenseFeatures)
    requires FeatureNamesMatchTable(names)
    ensures (set i | 0 <= i < 15 :: CheckedKeys(names)[i]) == EnabledFlags
    ensures forall i :: 0 <= i < 15 ==> NamedCheck(names, i) == Some(Bool(true))
  {
    var keys := CheckedKeys(names);
    assert (set i | 0 <= i < 15 :: keys[i]) == EnabledFlags by {
      forall key | key in EnabledFlags
        ensures exists i :: 0 <= i < 15 && keys[i] == key
      {
        if key == keys[0] {} else if key == keys[1] {} else if key == keys[2] {}
        else if key == keys[3] {} else if key == keys[4] {} else if key == keys[5] {}
        else if key == keys[6] {} else if key == keys[7] {} else if key == keys[8] {}
        else if key == keys[9] {} else if key == keys[10] {} else if key == keys[11] {}
        else if key == keys[12] {} else if key == keys[13] {} else { assert key == keys[14]; }
      }
    }
  }

  // ---------------------------------------------------------------------------
  // Raw values and quotas

  /**
   * `getFeatureValue(feature)`: a pure lookup; a key the table lacks reads as
   * `undefined`, never as an error. Present values have the type their key's
   * kind promises.
   */
  function GetFeatureValue(feature: string): (r: Option<Value>)
    ensures r == None <==> feature !in Features
    ensures r.Some? ==> r.value == Features[feature]
    ensures r.Some? && IsFlagKey(feature) ==> r.value.Bool?
    ensures r.Some? && IsQuotaKey(feature) ==> r.value.Num?
    ensures feature == PlanNameKey ==> r == Some(Str("enterprise"))
  {
    FlagEntries();
    QuotaEntries();
    Lookup(Features, feature)
  }

  /** `getUsersLimit()` */
  function GetUsersLimit(c: Constants): (r: Value)
    ensures c.quotas.usersLimit !in Features ==> r == Num(c.unlimitedQuota)
    ensures c.quotas.usersLimit in Features ==> r == Features[c.quotas.usersLimit]
    ensures IsQuotaKey(c.quotas.usersLimit) ==> r.Num?
    ensures c.quotas.usersLimit == "quota:users" ==> r == Num(1000)
  {
    QuotaEntries();
    Coalesce(GetFeatureValue(c.quotas.usersLimit), Num(c.unlimitedQuota))
  }

  /** `getTriggerLimit()` */
  function GetTriggerLimit(c: Constants): (r: Value)
    ensures c.quotas.triggerLimit !in Features ==> r == Num(c.unlimitedQuota)
    ensures c.quotas.triggerLimit in Features ==> r == Features[c.quotas.triggerLimit]
    ensures IsQuotaKey(c.quotas.triggerLimit) ==> r.Num?
    ensures c.quotas.triggerLimit == "quota:activeWorkflows" ==> r == Num(10000)
  {
    QuotaEntries();
    Coalesce(GetFeatureValue(c.quotas.triggerLimit), Num(c.unlimitedQuota))
  }

  /** `getVariablesLimit()` */
  function GetVariablesLimit(c: Constants): (r: Value)
    ensures c.quotas.variablesLimit !in Features ==> r == Num(c.unlimitedQuota)
    ensures c.quotas.variablesLimit in Features ==> r == Features[c.quotas.variablesLimit]
    ensures IsQuotaKey(c.quotas.variablesLimit) ==> r.Num?
    ensures c.quotas.variablesLimit == "quota:maxVariables" ==> r == Num(1000)
  {
    QuotaEntries();
    Coalesce(GetFeatureValue(c.quotas.variablesLimit), Num(c.unlimitedQuota))
  }

  /** `getWorkflowHistoryPruneLimit()` */
  function GetWorkflowHistoryPruneLimit(c: Constants): (r: Value)
    ensures c.quotas.workflowHistoryPruneLimit !in Features ==> r == Num(c.unlimitedQuota)
    ensures c.quotas.workflowHistoryPruneLimit in Features ==> r == Features[c.quotas.workflowHistoryPruneLimit]
    ensures IsQuotaKey(c.quotas.workflowHistoryPruneLimit) ==> r.Num?
    ensures c.quotas.workflowHistoryPruneLimit == "quota:workflowHistoryPrune" ==> r == Num(1000)
  {
    QuotaEntries();
    Coalesce(GetFeatureValue(c.quotas.workflowHistoryPruneLimit), Num(c.unlimitedQuota))
  }

  /** `getPlanName()`: the table names the plan, so the `'Community'` fallback is never taken. */
  function GetPlanName(): (r: Value)
    ensures r == Str("enterprise")
  {
    Coalesce(GetFeatureValue(PlanNameKey), Str("Community"))
  }

  /**
   * `isWithinUsersLimit()`: a strict-equality test of the users limit against
   * the unlimited sentinel, so it holds only when the users quota is unlimited.
   */
  function IsWithinUsersLimit(c: Constants): (r: bool)
    ensures r <==> GetUsersLimit(c) == Num(c.unlimitedQuota)
    ensures c.quotas.usersLimit !in Features ==> r
    ensures c.quotas.usersLimit == "quota:users" ==> (r <==> c.unlimitedQuota == 1000)
  {
    GetUsersLimit(c) == Num(c.unlimitedQuota)
  }

  /** With the table's finite users quota of 1000, the instance is never "within" the users limit. */
  lemma UsersLimitIsFinite(c: Constants)
    requires QuotaNamesMatchTable(c.quotas) && c.unlimitedQuota != 1000
    ensures GetUsersLimit(c) == Num(1000)
    ensures !IsWithinUsersLimit(c)
  {
  }

  // ---------------------------------------------------------------------------
  // Entitlement records

  const CurrentEntitlementId: string := "1b765dc4-d39d-4ffe-9885-c56dd67c4b26"
  const CurrentProductId: string := "670650f2-72d8-4397-898c-c249906e2cc2"
  const IsMainPlanPath: seq<string> := ["terms", "isMainPlan"]

  /**
   * `getCurrentEntitlements()`: one entitlement carrying the whole table, no
   * overrides, marked as the main plan. `validFrom` and `validTo` are the two
   * clock readings the source takes.
   */
  function GetCurrentEntitlements(validFrom: Instant, validTo: Instant): (r: seq<Entitlement>)
    ensures |r| == 1
    ensures r[0].features == Features && r[0].featureOverrides == map[]
    ensures MetadataAt(r[0].productMetadata, IsMainPlanPath) == Some(JBool(true))
    ensures r[0].isFloatable == None
    ensures r[0].validFrom == validFrom && r[0].validTo == validTo
    ensures forall key :: Lookup(r[0].features, key) == GetFeatureValue(key)
  {
    [ Entitlement(
        CurrentEntitlementId,
        CurrentProductId,
        map["terms" := JObject(map["isMainPlan" := JBool(true)])],
        Features,
        map[],
        validFrom,
        validTo,
        None) ]
  }

  /**
   * `getMainPlan()`: always an entitlement (never `undefined`) carrying the
   * whole table, floatable, valid from the clock reading `now` until
   * 2026-01-01 UTC.
   */
  function GetMainPlan(now: Instant): (r: Option<Entitlement>)
    ensures r.Some?
    ensures r.value.features == Features
    ensures r.value.isFloatable == Some(true)
    ensures r.value.validFrom == now && r.value.validTo == DateOnly(2026, 1, 1)
  {
    Some(Entitlement(
      "abcd",
      "test",
      map["hello" := JStr("world")],
      Features,
      map["hello" := Str("world")],
      now,
      DateOnly(2026, 1, 1),
      Some(true)))
  }

  /** Unlike the record of `getCurrentEntitlements`, the main plan's metadata does not mark it as the main plan. */
  lemma MainPlanIsNotMarkedMain(now: Instant)
    ensures MetadataAt(GetMainPlan(now).value.productMetadata, IsMainPlanPath) == None
    ensures MetadataAt(GetCurrentEntitlements(now, now)[0].productMetadata, IsMainPlanPath) == Some(JBool(true))
  {
  }

  /** The main plan's one override names no key of the table, so it could not change any feature or quota. */
  lemma MainPlanOverridesNoTableKey(now: Instant)
    ensures GetMainPlan(now).value.featureOverrides.Keys == {"hello"}
    ensures "hello" !in Features
  {
  }
}
