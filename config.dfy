/** Settings of the job, read from the process environment (src/config.ts). */
module Config {
  import opened Outcomes

  /** The process environment: variables that are set, with their values. */
  type Env = map<string, string>

  /** `process.env[name] || ''`: an unset variable reads like an empty one. */
  function Read(env: Env, name: string): string
  {
    if name in env then env[name] else ""
  }

  datatype IbkrSettings = IbkrSettings(token: string, queryId: string)

  datatype ActualSettings = ActualSettings(
    budgetId: string,
    syncAccountId: string,
    serverUrl: string,
    serverPassword: string,
    currency: string)

  datatype CurrencyApiSettings = CurrencyApiSettings(exchangeRateApiKey: Option<string>)

  datatype Config = Config(ibkr: IbkrSettings, actual: ActualSettings, currencyApi: CurrencyApiSettings)

  const DefaultCurrency: string := "USD"

  /** The variables behind the six required settings, in the order they are checked. */
  const RequiredVars: seq<string> := [
    "IBKR_TOKEN", "IBKR_QUERY_ID", "ACTUAL_BUDGET_ID",
    "ACTUAL_SYNC_ACCOUNT_ID", "ACTUAL_SERVER_URL", "ACTUAL_SERVER_PASSWORD"]

  /** The name each one's error message reports. The second differs from its
      variable: it is made from the settings key `queryId`, upper-cased. */
  const ReportedNames: seq<string> := [
    "IBKR_TOKEN", "IBKR_QUERYID", "ACTUAL_BUDGET_ID",
    "ACTUAL_SYNC_ACCOUNT_ID", "ACTUAL_SERVER_URL", "ACTUAL_SERVER_PASSWORD"]

  /** `toUpperCase` on the ASCII letters the settings keys are made of. */
  function UpperChar(c: char): char
  {
    if 'a' <= c <= 'z' then (c as int - 32) as char else c
  }

  function ToUpper(s: string): string
  {
    seq(|s|, i requires 0 <= i < |s| => UpperChar(s[i]))
  }

  function MissingVariable(name: string): Error
  {
    Thrown("Missing environment variable: " + name)
  }

  /** Reference definition: the index of the first required variable, from
      position `i` on, that is unset or empty. */
  function FirstMissingFrom(env: Env, i: nat): Option<nat>
    decreases |RequiredVars| - i
  {
    if i >= |RequiredVars| then None
    else if Read(env, RequiredVars[i]) == "" then Some(i)
    else FirstMissingFrom(env, i + 1)
  }

  function FirstMissing(env: Env): Option<nat>
  {
    FirstMissingFrom(env, 0)
  }

  /** FirstMissing finds the least index whose variable is missing, and finds
      none exactly when every required variable is set and non-empty. */
  lemma {:induction false} FirstMissingIsLeast(env: Env, i: nat)
    ensures FirstMissingFrom(env, i).Some? ==>
      var k := FirstMissingFrom(env, i).value;
      && i <= k < |RequiredVars|
      && Read(env, RequiredVars[k]) == ""
      && forall j :: i <= j < k ==> Read(env, RequiredVars[j]) != ""
    ensures FirstMissingFrom(env, i).None? <==>
      forall j :: i <= j < |RequiredVars| ==> Read(env, RequiredVars[j]) != ""
    decreases |RequiredVars| - i
  {
    if i < |RequiredVars| && Read(env, RequiredVars[i]) != "" {
      FirstMissingIsLeast(env, i + 1);
    }
  }

  /** The settings object as built before validation: every field read from its
      variable, the ledger currency defaulting to USD, the rate-service key
      passed through as it is (possibly unset, possibly empty). */
  function Load(env: Env): Config
  {
    Config(
      IbkrSettings(Read(env, "IBKR_TOKEN"), Read(env, "IBKR_QUERY_ID")),
      ActualSettings(
        Read(env, "ACTUAL_BUDGET_ID"),
        Read(env, "ACTUAL_SYNC_ACCOUNT_ID"),
        Read(env, "ACTUAL_SERVER_URL"),
        Read(env, "ACTUAL_SERVER_PASSWORD"),
        if Read(env, "ACTUAL_BUDGET_CURRENCY") == "" then DefaultCurrency
        else Read(env, "ACTUAL_BUDGET_CURRENCY")),
      CurrencyApiSettings(
        if "EXCHANGE_RATE_API_KEY" in env then Some(env["EXCHANGE_RATE_API_KEY"]) else None))
  }

  /** The key of the first (key, value) entry whose value is empty. */
  function FirstEmptyKey(entries: seq<(string, string)>): Option<string>
  {
    if entries == [] then None
    else if entries[0].1 == "" then Some(entries[0].0)
    else FirstEmptyKey(entries[1..])
  }

  /** The loop over the two IBKR settings reports `IBKR_` followed by the
      upper-cased key of the first empty one: IBKR_TOKEN, then IBKR_QUERYID. */
  lemma IbkrKeysChecked(token: string, queryId: string)
    ensures FirstEmptyKey([("token", token), ("queryId", queryId)]) ==
      if token == "" then Some("token") else if queryId == "" then Some("queryId") else None
    ensures "IBKR_" + ToUpper("token") == ReportedNames[0]
    ensures "IBKR_" + ToUpper("queryId") == ReportedNames[1]
  {
    var entries := [("token", token), ("queryId", queryId)];
    assert entries[1..] == [("queryId", queryId)];
    assert entries[1..][1..] == [];
    assert FirstEmptyKey(entries[1..][1..]) == None;
    assert FirstEmptyKey(entries[1..]) == if queryId == "" then Some("queryId") else None;
    assert ToUpper("token") == "TOKEN";
    assert ToUpper("queryId") == "QUERYID";
  }

  /** getConfig: build the settings, then reject the first missing required one. */
  function GetConfig(env: Env): (r: Result<Config, Error>)
    ensures r.Failure? <==> FirstMissing(env).Some?
    ensures r.Failure? ==> r.error == MissingVariable(ReportedNames[FirstMissing(env).value])
    ensures r.Success? ==>
      && r.value.ibkr.token == Read(env, "IBKR_TOKEN") != ""
      && r.value.ibkr.queryId == Read(env, "IBKR_QUERY_ID") != ""
      && r.value.actual.budgetId == Read(env, "ACTUAL_BUDGET_ID") != ""
      && r.value.actual.syncAccountId == Read(env, "ACTUAL_SYNC_ACCOUNT_ID") != ""
      && r.value.actual.serverUrl == Read(env, "ACTUAL_SERVER_URL") != ""
      && r.value.actual.serverPassword == Read(env, "ACTUAL_SERVER_PASSWORD") != ""
    ensures r.Success? ==>
      r.value.actual.currency == (if Read(env, "ACTUAL_BUDGET_CURRENCY") == "" then "USD"
                                  else env["ACTUAL_BUDGET_CURRENCY"])
    ensures r.Success? ==>
      r.value.currencyApi.exchangeRateApiKey ==
        (if "EXCHANGE_RATE_API_KEY" in env then Some(env["EXCHANGE_RATE_API_KEY"]) else None)
  {
    var config := Load(env);
    var ibkrEntries := [("token", config.ibkr.token), ("queryId", config.ibkr.queryId)];
    IbkrKeysChecked(config.ibkr.token, config.ibkr.queryId);
    match FirstEmptyKey(ibkrEntries)
    case Some(key) => Failure(MissingVariable("IBKR_" + ToUpper(key)))
    case None =>
      if config.actual.budgetId == "" then Failure(MissingVariable("ACTUAL_BUDGET_ID"))
      else if config.actual.syncAccountId == "" then Failure(MissingVariable("ACTUAL_SYNC_ACCOUNT_ID"))
      else if config.actual.serverUrl == "" then Failure(MissingVariable("ACTUAL_SERVER_URL"))
      else if config.actual.serverPassword == "" then Failure(MissingVariable("ACTUAL_SERVER_PASSWORD"))
      else Success(config)
  }
}
