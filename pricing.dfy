/** backend/internal/billing/pricing.go: the monthly price of a plan as a
    piecewise function of the server count, and its pro-rated estimate over
    a duration. Prices are real numbers; durations are in seconds. */
module Pricing {
  import BillingUsage

  /** A plan's price: a base price covering `includedServers`, and a price
      for each server beyond them. */
  datatype PlanPricing = PlanPricing(basePrice: real, pricePerServer: real, includedServers: int)

  /** The calculator's plan table. */
  const Plans: map<string, PlanPricing> := map[
    "free" := PlanPricing(0.0, 0.0, 5),
    "pro" := PlanPricing(49.0, 0.5, 10),
    "enterprise" := PlanPricing(299.0, 0.0, 0)
  ]

  /** A month, as the estimate counts it: 30 days of 24 hours. */
  const HoursPerMonth: real := 720.0

  /** The base price up to the included servers, plus the per-server price
      for each server beyond them. */
  function MonthlyCost(p: PlanPricing, servers: int): real
  {
    if servers <= p.includedServers then p.basePrice
    else p.basePrice + (servers - p.includedServers) as real * p.pricePerServer
  }

  /** The monthly cost of a usage record: nothing for an unknown plan, the
      base price for "enterprise" whatever the server count, and the
      piecewise price otherwise. */
  function CalculateCost(usage: BillingUsage.UsageRecord): (c: real)
    ensures usage.planId !in Plans ==> c == 0.0
    ensures usage.planId == "enterprise" ==> c == 299.0
    ensures usage.planId == "free" ==> c == 0.0
    ensures c >= 0.0
  {
    if usage.planId !in Plans then 0.0
    else if usage.planId == "enterprise" then Plans[usage.planId].basePrice
    else MonthlyCost(Plans[usage.planId], usage.serverCount)
  }

  /** The cost of `servers` on the plan over `duration` seconds: the monthly
      cost times the number of 720-hour months; "enterprise" is its base
      price whatever the servers and the duration, and an unknown plan costs
      nothing. */
  function EstimateCost(planId: string, servers: int, duration: int): (c: real)
    ensures planId !in Plans ==> c == 0.0
    ensures planId == "enterprise" ==> c == 299.0
    ensures planId == "free" ==> c == 0.0
  {
    if planId !in Plans then 0.0
    else if planId == "enterprise" then Plans[planId].basePrice
    else
      var months := (duration as real / 3600.0) / HoursPerMonth;
      MonthlyCost(Plans[planId], servers) * months
  }

  /** "pro" costs 49 for up to ten servers and 0.5 more for each server
      after the tenth. */
  lemma ProPrice(usage: BillingUsage.UsageRecord)
    requires usage.planId == "pro"
    ensures usage.serverCount <= 10 ==> CalculateCost(usage) == 49.0
    ensures usage.serverCount > 10 ==> CalculateCost(usage) == 49.0 + (usage.serverCount - 10) as real * 0.5
  {
  }

  /** More servers never cost less: on every plan of the table the monthly
      cost is non-decreasing in the server count. */
  lemma MonthlyCostMonotone(p: PlanPricing, s1: int, s2: int)
    requires p.pricePerServer >= 0.0
    requires s1 <= s2
    ensures MonthlyCost(p, s1) <= MonthlyCost(p, s2)
  {
    if s1 > p.includedServers {
      assert (s1 - p.includedServers) as real * p.pricePerServer <= (s2 - p.includedServers) as real * p.pricePerServer;
    } else if s2 > p.includedServers {
      assert 0.0 <= (s2 - p.includedServers) as real * p.pricePerServer;
    }
  }

  /** For a fixed plan, CalculateCost is non-decreasing in the server
      count. */
  lemma CalculateCostMonotone(u1: BillingUsage.UsageRecord, u2: BillingUsage.UsageRecord)
    requires u1.planId == u2.planId
    requires u1.serverCount <= u2.serverCount
    ensures CalculateCost(u1) <= CalculateCost(u2)
  {
    if u1.planId in Plans && u1.planId != "enterprise" {
      MonthlyCostMonotone(Plans[u1.planId], u1.serverCount, u2.serverCount);
    }
  }

  /** Except for "enterprise", the estimate is the monthly cost CalculateCost
      gives for the same plan and servers, pro-rated by the duration in
      720-hour months; one such month costs exactly the monthly cost. */
  lemma EstimateIsProRatedCost(usage: BillingUsage.UsageRecord, duration: int)
    requires usage.planId != "enterprise"
    ensures EstimateCost(usage.planId, usage.serverCount, duration)
         == CalculateCost(usage) * ((duration as real / 3600.0) / HoursPerMonth)
    ensures duration == 720 * 3600 ==> EstimateCost(usage.planId, usage.serverCount, duration) == CalculateCost(usage)
  {
  }
}
