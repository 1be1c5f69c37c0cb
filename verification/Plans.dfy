/** Time, plans and the plan catalog, as billing and the quotas share them. */
module Plans {
  type Time = int   // milliseconds

  const MINUTE: Time := 60_000
  const HOUR: Time := 60 * MINUTE
  const DAY: Time := 24 * HOUR

  datatype Plan = Free | Pro

  datatype Entitlements = Entitlements(maxMembers: nat, monthlyBotCommands: nat, liveTrading: bool)

  function Catalog(plan: Plan): Entitlements {
    match plan
    case Free => Entitlements(1, 0, false)
    case Pro => Entitlements(10, 10_000, true)
  }
}
