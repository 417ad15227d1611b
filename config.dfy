/**
 * The page's connection settings, read from the host application's
 * configuration under `app.litellm`, and the gate that refuses to render the
 * page unless every one of them is present and truthy.
 */
module Config {
  import opened Wrappers

  /** The `app.litellm` block as configured: any setting may be missing. */
  datatype RawConfig = RawConfig(
    baseUrl: Option<string>,
    adminKey: Option<string>,
    teamId: Option<string>,
    budgetId: Option<string>,
    maxBudgetPerUser: Option<int>)

  /** The settings the page runs with once the gate has accepted them. */
  datatype Settings = Settings(
    baseUrl: string,
    adminKey: string,
    teamId: string,
    budgetId: string,
    maxBudgetPerUser: int)

  /** The message of the error the page throws when the gate refuses. */
  const ConfigNotSet: string := "LiteLLM config is not set"

  /** JavaScript truthiness of an optional string: present and not empty. */
  predicate TruthyText(v: Option<string>)
  {
    v.Some? && v.value != ""
  }

  /** JavaScript truthiness of an optional number: present and not zero. */
  predicate TruthyNumber(v: Option<int>)
  {
    v.Some? && v.value != 0
  }

  /** Every setting is truthy. */
  predicate SettingsValid(s: Settings)
  {
    s.baseUrl != "" && s.adminKey != "" && s.teamId != "" && s.budgetId != "" && s.maxBudgetPerUser != 0
  }

  /** The configuration block that holds exactly the given settings. */
  function AsRaw(s: Settings): RawConfig
  {
    RawConfig(Some(s.baseUrl), Some(s.adminKey), Some(s.teamId), Some(s.budgetId), Some(s.maxBudgetPerUser))
  }

  /**
   * The mount-time gate: an absent block, or any absent or falsy setting,
   * is refused with the configuration error; otherwise the settings pass
   * through unchanged.
   */
  function CheckConfig(config: Option<RawConfig>): (r: Result<Settings, string>)
    ensures r.Success? ==> SettingsValid(r.value) && config == Some(AsRaw(r.value))
    ensures r.Failure? ==> r.error == ConfigNotSet
  {
    if config.None? then Failure(ConfigNotSet)
    else
      var c := config.value;
      if !TruthyText(c.baseUrl) || !TruthyText(c.adminKey) || !TruthyText(c.teamId)
         || !TruthyText(c.budgetId) || !TruthyNumber(c.maxBudgetPerUser)
      then Failure(ConfigNotSet)
      else Success(Settings(c.baseUrl.value, c.adminKey.value, c.teamId.value, c.budgetId.value,
                            c.maxBudgetPerUser.value))
  }

  /** The gate accepts exactly the blocks whose five settings are all truthy, and hands those settings back. */
  lemma CheckConfigAccepts(s: Settings)
    ensures CheckConfig(Some(AsRaw(s))).Success? <==> SettingsValid(s)
    ensures SettingsValid(s) ==> CheckConfig(Some(AsRaw(s))) == Success(s)
  {
  }

  /** A block with any setting missing or falsy is refused; a zero budget and an empty string included. */
  lemma CheckConfigRefusesFalsy(c: RawConfig)
    requires !TruthyText(c.baseUrl) || !TruthyText(c.adminKey) || !TruthyText(c.teamId)
             || !TruthyText(c.budgetId) || !TruthyNumber(c.maxBudgetPerUser)
    ensures CheckConfig(Some(c)) == Failure(ConfigNotSet)
  {
  }
}
