/**
 * Resource-group resolution of osmosis_azure_driver/config.py.
 *
 * `Config.__init__` assigns `resource_group_name` once, by the first of
 * three rules that applies: the environment variable, when it is set at
 * all (`is not None`, so an empty value still wins); the configuration's
 * key, when a configuration is given and holds it; the fixed default.
 * The process environment is a parameter here: the variables that are set,
 * with their values.
 */
module Config {
  import opened Wrappers

  const ResourceGroupVariable := "AZURE_RESOURCE_GROUP"
  const ResourceGroupKey := "azure.resource_group"
  const DefaultResourceGroup := "OceanProtocol"

  /** The name `Config(config).resource_group_name` takes in environment `env`. */
  function ResourceGroupName(env: map<string, string>, config: Option<map<string, string>>): (name: string)
    ensures ResourceGroupVariable in env ==> name == env[ResourceGroupVariable]
    ensures ResourceGroupVariable !in env && config.Some? && ResourceGroupKey in config.value
            ==> name == config.value[ResourceGroupKey]
    ensures ResourceGroupVariable !in env && (config.None? || ResourceGroupKey !in config.value)
            ==> name == DefaultResourceGroup
  {
    if ResourceGroupVariable in env then env[ResourceGroupVariable]
    else if config.Some? && ResourceGroupKey in config.value then config.value[ResourceGroupKey]
    else DefaultResourceGroup
  }

  /** Once the variable is set, the configuration plays no part. */
  lemma ConfigIgnoredWhenVariableSet(env: map<string, string>, c1: Option<map<string, string>>, c2: Option<map<string, string>>)
    requires ResourceGroupVariable in env
    ensures ResourceGroupName(env, c1) == ResourceGroupName(env, c2)
  {
  }

  /** A variable set to the empty string is used as it is: the result is "". */
  lemma EmptyVariableWins(env: map<string, string>, config: Option<map<string, string>>)
    requires ResourceGroupVariable in env && env[ResourceGroupVariable] == ""
    ensures ResourceGroupName(env, config) == ""
  {
  }

  /**
   * The result is always one of the three candidates, and the default is
   * chosen only when neither source supplies a value.
   */
  lemma ResolutionCandidates(env: map<string, string>, config: Option<map<string, string>>)
    ensures var name := ResourceGroupName(env, config);
            || (ResourceGroupVariable in env && name == env[ResourceGroupVariable])
            || (config.Some? && ResourceGroupKey in config.value && name == config.value[ResourceGroupKey])
            || name == DefaultResourceGroup
    ensures ResourceGroupName(env, config) == DefaultResourceGroup && DefaultResourceGroup !in env.Values
            && (config.None? || DefaultResourceGroup !in config.value.Values)
            ==> ResourceGroupVariable !in env && (config.None? || ResourceGroupKey !in config.value)
  {
  }
}
