/**
 * The constants the license service imports from its `constants` module:
 * the key names behind `LICENSE_FEATURES.*` and `LICENSE_QUOTAS.*`, and the
 * `UNLIMITED_LICENSE_QUOTA` sentinel. Their values are not part of this model,
 * so they are parameters; facts that depend on them are stated under the
 * hypotheses below rather than assumed.
 */
module LicenseConstants {

  /** The `LICENSE_FEATURES` members that the named feature checks read. */
  datatype LicenseFeatures = LicenseFeatures(
    sharing: string,
    logStreaming: string,
    ldap: string,
    saml: string,
    advancedExecutionFilters: string,
    advancedPermissions: string,
    debugInEditor: string,
    binaryDataS3: string,
    multipleMainInstances: string,
    variables: string,
    sourceControl: string,
    externalSecrets: string,
    workflowHistory: string,
    apiDisabled: string,
    workerView: string)

  /** The `LICENSE_QUOTAS` members that the limit helpers read. */
  datatype LicenseQuotas = LicenseQuotas(
    triggerLimit: string,
    variablesLimit: string,
    usersLimit: string,
    workflowHistoryPruneLimit: string)

  /** Everything the license service takes from its constants module. */
  datatype Constants = Constants(
    features: LicenseFeatures,
    quotas: LicenseQuotas,
    unlimitedQuota: int)

  /** Hypothesis: each `LICENSE_FEATURES` member names the table key spelled after it. */
  predicate FeatureNamesMatchTable(f: LicenseFeatures)
  {
    && f.sharing == "feat:sharing"
    && f.logStreaming == "feat:logStreaming"
    && f.ldap == "feat:ldap"
    && f.saml == "feat:saml"
    && f.advancedExecutionFilters == "feat:advancedExecutionFilters"
    && f.advancedPermissions == "feat:advancedPermissions"
    && f.debugInEditor == "feat:debugInEditor"
    && f.binaryDataS3 == "feat:binaryDataS3"
    && f.multipleMainInstances == "feat:multipleMainInstances"
    && f.variables == "feat:variables"
    && f.sourceControl == "feat:sourceControl"
    && f.externalSecrets == "feat:externalSecrets"
    && f.workflowHistory == "feat:workflowHistory"
    && f.apiDisabled == "feat:apiDisabled"
    && f.workerView == "feat:workerView"
  }

  /** Hypothesis: each `LICENSE_QUOTAS` member names the table's quota key for it. */
  predicate QuotaNamesMatchTable(q: LicenseQuotas)
  {
    && q.triggerLimit == "quota:activeWorkflows"
    && q.variablesLimit == "quota:maxVariables"
    && q.usersLimit == "quota:users"
    && q.workflowHistoryPruneLimit == "quota:workflowHistoryPrune"
  }
}
