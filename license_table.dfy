/**
 * The fixed entitlement table of the license service: the module-level
 * `features` object. Keys prefixed `feat:` are boolean feature flags, keys
 * prefixed `quota:` are numeric quotas, and `planName` names the plan.
 */
module LicenseTable {
  import opened JsValues

  const PlanNameKey: string := "planName"
  const NonProdBannerKey: string := "feat:showNonProdBanner"
  const FlagPrefix: string := "feat:"
  const QuotaPrefix: string := "quota:"

  const Features: map<string, Value> := map[
    "planName" := Str("enterprise"),
    "feat:sharing" := Bool(true),
    "feat:ldap" := Bool(true),
    "feat:saml" := Bool(true),
    "feat:logStreaming" := Bool(true),
    "feat:advancedExecutionFilters" := Bool(true),
    "feat:variables" := Bool(true),
    "feat:sourceControl" := Bool(true),
    "feat:apiDisabled" := Bool(true),
    "feat:externalSecrets" := Bool(true),
    "feat:showNonProdBanner" := Bool(false),
    "feat:workflowHistory" := Bool(true),
    "feat:debugInEditor" := Bool(true),
    "feat:binaryDataS3" := Bool(true),
    "feat:multipleMainInstances" := Bool(true),
    "feat:workerView" := Bool(true),
    "feat:advancedPermissions" := Bool(true),
    "quota:activeWorkflows" := Num(10000),
    "quota:maxVariables" := Num(1000),
    "quota:users" := Num(1000),
    "quota:workflowHistoryPrune" := Num(1000)
  ]

  /** The flags the table turns on: every `feat:` key but the non-production banner. */
  const EnabledFlags: set<string> := {
    "feat:sharing", "feat:ldap", "feat:saml", "feat:logStreaming",
    "feat:advancedExecutionFilters", "feat:variables", "feat:sourceControl",
    "feat:apiDisabled", "feat:externalSecrets", "feat:workflowHistory",
    "feat:debugInEditor", "feat:binaryDataS3", "feat:multipleMainInstances",
    "feat:workerView", "feat:advancedPermissions"
  }

  const QuotaKeys: set<string> := {
    "quota:activeWorkflows", "quota:maxVariables", "quota:users", "quota:workflowHistoryPrune"
  }

  predicate HasPrefix(key: string, prefix: string)
  {
    |prefix| <= |key| && key[..|prefix|] == prefix
  }

  predicate IsFlagKey(key: string)
  {
    HasPrefix(key, FlagPrefix)
  }

  predicate IsQuotaKey(key: string)
  {
    HasPrefix(key, QuotaPrefix)
  }

  /** Two non-empty strings with different first characters are not prefixes of one another. */
  lemma FirstCharacterRulesOutPrefix(key: string, prefix: string)
    requires 0 < |key| && 0 < |prefix| && key[0] != prefix[0]
    ensures !HasPrefix(key, prefix)
  {
  }

  /** The table's keys are exactly the plan name, the flags and the quotas. */
  lemma TableKeys()
    ensures Features.Keys == {PlanNameKey, NonProdBannerKey} + EnabledFlags + QuotaKeys
  {
  }

  /** Each enabled flag is in the table with the value `true`. */
  lemma EnabledFlagEntries()
    ensures forall key :: key in EnabledFlags ==> key in Features && Features[key] == Bool(true)
  {
    assert Features["feat:sharing"] == Bool(true);
    assert Features["feat:ldap"] == Bool(true);
    assert Features["feat:saml"] == Bool(true);
    assert Features["feat:logStreaming"] == Bool(true);
    assert Features["feat:advancedExecutionFilters"] == Bool(true);
    assert Features["feat:variables"] == Bool(true);
    assert Features["feat:sourceControl"] == Bool(true);
    assert Features["feat:apiDisabled"] == Bool(true);
    assert Features["feat:externalSecrets"] == Bool(true);
    assert Features["feat:workflowHistory"] == Bool(true);
    assert Features["feat:debugInEditor"] == Bool(true);
    assert Features["feat:binaryDataS3"] == Bool(true);
    assert Features["feat:multipleMainInstances"] == Bool(true);
    assert Features["feat:workerView"] == Bool(true);
    assert Features["feat:advancedPermissions"] == Bool(true);
  }

  /** Each quota key is in the table with a number. */
  lemma QuotaKeyEntries()
    ensures forall key :: key in QuotaKeys ==> key in Features && Features[key].Num?
  {
  }

  /** Every `feat:` key in the table is `true` except `feat:showNonProdBanner`, which is `false`. */
  lemma FlagEntries()
    ensures forall key :: key in Features && IsFlagKey(key) ==> Features[key] == Bool(key != NonProdBannerKey)
  {
    TableKeys();
    EnabledFlagEntries();
    forall key | key in Features && IsFlagKey(key)
      ensures Features[key] == Bool(key != NonProdBannerKey)
    {
      if key == PlanNameKey {
        FirstCharacterRulesOutPrefix(key, FlagPrefix);
      } else if key in QuotaKeys {
        QuotaKeysAreNotFlags(key);
      } else if key != NonProdBannerKey {
        assert key in EnabledFlags;
      }
    }
  }

  /** Every `quota:` key in the table holds a number. */
  lemma QuotaEntries()
    ensures forall key :: key in Features && IsQuotaKey(key) ==> Features[key].Num?
  {
    TableKeys();
    QuotaKeyEntries();
    forall key | key in Features && IsQuotaKey(key)
      ensures Features[key].Num?
    {
      if key == PlanNameKey || key == NonProdBannerKey {
        FirstCharacterRulesOutPrefix(key, QuotaPrefix);
      } else if key in EnabledFlags {
        EnabledFlagsAreNotQuotas(key);
      }
    }
  }

  lemma QuotaKeysAreNotFlags(key: string)
    requires key in QuotaKeys
    ensures !IsFlagKey(key)
  {
    assert key[0] == 'q';
    FirstCharacterRulesOutPrefix(key, FlagPrefix);
  }

  lemma EnabledFlagsAreNotQuotas(key: string)
    requires key in EnabledFlags
    ensures !IsQuotaKey(key)
  {
    assert key[0] == 'f';
    FirstCharacterRulesOutPrefix(key, QuotaPrefix);
  }

  /** The table entries that are `true` are exactly the enabled flags, and only the banner flag is `false`. */
  lemma BooleanEntries()
    ensures forall key :: key in Features && Features[key] == Bool(true) <==> key in EnabledFlags
    ensures forall key :: key in Features && Features[key] == Bool(false) <==> key == NonProdBannerKey
  {
    TableKeys();
    EnabledFlagEntries();
    QuotaKeyEntries();
  }
}
