/**
 The rows of the gateway's tables and the published runtime snapshot.

 Columns holding JSON are kept decoded, except a rule's action: whether it can
 be decoded matters.  A cooldown is a number of Unix seconds in its row and an
 instant in the snapshot.
 */
module Tables {
  import opened Clock

  datatype Provider = Provider(
    name: string, weight: int, models: seq<string>, maxRPM: int, maxTPM: int,
    enabled: bool, groupName: string, recoverIntervalSec: int)

  datatype ProviderKey = ProviderKey(
    id: int, providerName: string, alias: string, enabled: bool,
    consecutiveErrs: int, cooldownUntil: int, lastStatus: string)

  datatype APIKey = APIKey(
    keyValue: string, tenantName: string, balanceMicros: int, maxRPM: int, maxTPM: int,
    allowedModels: seq<string>, rateMultiplier: real, enabled: bool)

  datatype Rule = Rule(id: int, name: string, priority: int, enabled: bool, conditionJS: string, actionJSON: string)

  datatype GroupSchedule = GroupSchedule(
    id: int, groupName: string, weekdayMask: string, startHHMM: string, endHHMM: string,
    multiplier: real, enabled: bool)

  datatype PriceRule = PriceRule(modelPrefix: string, pricePer1MMicros: int, enabled: bool)

  datatype BillingTxn = BillingTxn(apiKey: string, deltaMicros: int, reason: string, ref: string)

  datatype UsageRecord = UsageRecord(apiKey: string, provider: string, providerKey: string, model: string, totalTokens: int)

  /**
   The database.  Tables with a unique text column are maps; the others are the
   rows in the order of their automatic ids.
   */
  datatype Database = Database(
    providers: map<string, Provider>,
    providerKeys: seq<ProviderKey>,
    apiKeys: map<string, APIKey>,
    rules: seq<Rule>,
    nextRuleId: int,
    schedules: seq<GroupSchedule>,
    nextScheduleId: int,
    prices: seq<PriceRule>,
    txns: seq<BillingTxn>,
    usage: seq<UsageRecord>)

  // ---- The snapshot ----

  datatype ProviderKeyState = ProviderKeyState(
    id: int, alias: string, enabled: bool, consecutiveErrs: int, cooldownUntil: int, lastStatus: string)

  datatype ProviderState = ProviderState(
    name: string, weight: int, models: seq<string>, maxRPM: int, maxTPM: int,
    enabled: bool, groupName: string, recoverInterval: nat, keys: seq<ProviderKeyState>)

  datatype GatewayKey = GatewayKey(
    key: string, tenantName: string, balanceMicros: int, maxRPM: int, maxTPM: int,
    allowedModels: seq<string>, rateMultiplier: real, enabled: bool)

  datatype RuleAction = RuleAction(forceProvider: string, deny: bool, rateMultiplier: real)

  datatype RuleState = RuleState(id: int, name: string, priority: int, enabled: bool, condition: string, action: RuleAction)

  datatype Snapshot = Snapshot(
    providers: map<string, ProviderState>,
    keys: map<string, GatewayKey>,
    rules: seq<RuleState>,
    schedules: seq<GroupSchedule>)

  // ---- Unix time ----

  /** Seconds from the start of year 1 to the start of 1970. */
  const UNIX_EPOCH: int := 62_135_596_800

  /** The calendar agrees. */
  lemma EpochIs1970()
    ensures UNIX_EPOCH == DaysToYear(1, 1970) * 24 * 60 * 60
  {
    GregorianYears(1970);
  }

  /** t.Unix(): whole seconds since 1970, the fraction dropped. */
  function UnixSeconds(t: Time): int { t / SECOND - UNIX_EPOCH }

  /** time.Unix(seconds, 0) */
  function UnixTime(seconds: int): int { (seconds + UNIX_EPOCH) * SECOND }
}
