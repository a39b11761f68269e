/** backend/internal/billing/service.go: the billing front of the
    subscription service and the usage tracker: the plan catalogue, plan
    validation on subscription, usage summaries and payments. The clock is
    a parameter, and so is the date one year after it. */
module Billing {
  import opened Common
  import SubscriptionStore
  import Subscriptions
  import UsageStore
  import UsageTracker
  import BillingUsage
  import Pricing

  /** A plan of the catalogue; `price` is per month. */
  datatype Plan = Plan(id: string, name: string, description: string, price: real, currency: string,
                       features: seq<string>)

  /** The billing view of a subscription; the dates are Unix seconds. */
  datatype Subscription = Subscription(id: string, userId: string, planId: string, status: string,
                                       startDate: int, endDate: int)

  datatype Payment = Payment(id: string, subscriptionId: string, amount: real, currency: string,
                             status: string, createdAt: int)

  /** The catalogue the service starts with. */
  const DefaultPlans: seq<Plan> := [
    Plan("free", "Free Tier", "Basic monitoring for small setups", 0.0, "USD",
         ["5 servers max", "Basic monitoring (5-minute intervals)", "Email notifications", "Community support"]),
    Plan("pro", "Professional", "For growing businesses", 49.0, "USD",
         ["50 servers", "1-minute monitoring intervals", "Slack/Webhook notifications",
          "Basic automation workflows", "Email support"]),
    Plan("enterprise", "Enterprise", "For large scale deployments", 299.0, "USD",
         ["Unlimited servers", "15-second monitoring", "Advanced RBAC", "API access", "Audit logging",
          "Priority support", "On-premise option"])
  ]

  /** The catalogue lists exactly free, pro and enterprise, in that order,
      at 0, 49 and 299 USD; each plan's listed price is the base price the
      pricing calculator charges for it. */
  lemma CatalogueMatchesPricing()
    ensures |DefaultPlans| == 3
    ensures DefaultPlans[0].id == "free" && DefaultPlans[1].id == "pro" && DefaultPlans[2].id == "enterprise"
    ensures DefaultPlans[0].price == 0.0 && DefaultPlans[1].price == 49.0 && DefaultPlans[2].price == 299.0
    ensures forall p :: p in DefaultPlans ==> p.currency == "USD"
    ensures forall p :: p in DefaultPlans ==> p.id in Pricing.Plans && p.price == Pricing.Plans[p.id].basePrice
    ensures forall id :: id in Pricing.Plans ==> exists p :: p in DefaultPlans && p.id == id
  {
    assert DefaultPlans[0] in DefaultPlans;
    assert DefaultPlans[1] in DefaultPlans;
    assert DefaultPlans[2] in DefaultPlans;
  }

  /** The plan-lookup loop: the first plan with the id, if any. */
  method FindPlan(plans: seq<Plan>, planID: string) returns (r: Option<Plan>)
    ensures r.Some? <==> exists i :: 0 <= i < |plans| && plans[i].id == planID
    ensures r.Some? ==> exists i :: 0 <= i < |plans| && plans[i].id == planID && r.value == plans[i] &&
                                  forall j :: 0 <= j < i ==> plans[j].id != planID
  {
    r := None;
    var i := 0;
    while i < |plans|
      invariant 0 <= i <= |plans|
      invariant forall j :: 0 <= j < i ==> plans[j].id != planID
    {
      if plans[i].id == planID {
        r := Some(plans[i]);
        return;
      }
      i := i + 1;
    }
  }

  /** What the service hands to the subscription service: the billing
      subscription with no renewal date and no payment method. */
  function Stored(sub: Subscription): SubscriptionStore.Subscription
  {
    SubscriptionStore.Subscription(sub.id, sub.userId, sub.planId, sub.status, sub.startDate, sub.endDate, ZeroTime, "")
  }

  class BillingService {
    const subscriptionService: Subscriptions.SubscriptionService
    const usageTracker: UsageTracker.UsageTracker
    const plans: seq<Plan> := DefaultPlans

    constructor (subscriptionService: Subscriptions.SubscriptionService, usageTracker: UsageTracker.UsageTracker)
      ensures this.subscriptionService == subscriptionService && this.usageTracker == usageTracker
    {
      this.subscriptionService := subscriptionService;
      this.usageTracker := usageTracker;
    }

    /** Validates the plan against the catalogue before anything else: an
        unknown plan is "invalid plan ID" and the subscription service is not
        called. Otherwise an active one-year subscription is created through
        the subscription service, whose error (an empty user) is passed on. */
    method CreateSubscription(userID: string, planID: string, now: int, yearLater: int)
      returns (r: Result<Subscription>)
      requires subscriptionService.repo.Valid()
      modifies subscriptionService.repo
      ensures subscriptionService.repo.Valid()
      ensures (forall p :: p in plans ==> p.id != planID) ==> r == Err("invalid plan ID")
      ensures (exists p :: p in plans && p.id == planID) && userID == "" ==> r == Err("user ID is required")
      ensures r.Err? ==> subscriptionService.repo.subscriptions == old(subscriptionService.repo.subscriptions)
      ensures r.Ok? <==> (exists p :: p in plans && p.id == planID) && userID != ""
      ensures r.Ok? ==> r.value == Subscription(GeneratedUuid, userID, planID, Subscriptions.Active, now, yearLater)
      ensures r.Ok? ==>
        subscriptionService.repo.subscriptions
        == old(subscriptionService.repo.subscriptions)[GeneratedUuid := Subscriptions.Created(Stored(r.value), now, yearLater)]
    {
      var selected := FindPlan(plans, planID);
      if selected.None? {
        return Err("invalid plan ID");
      }
      var sub := Subscription(GeneratedUuid, userID, planID, Subscriptions.Active, now, yearLater);
      var created, _ := subscriptionService.Create(Stored(sub), now, yearLater);
      if created.Err? {
        return Err(created.msg);
      }
      r := Ok(sub);
    }

    method CancelSubscription(subscriptionID: string) returns (r: Result<()>)
      requires subscriptionService.repo.Valid()
      modifies subscriptionService.repo
      ensures subscriptionService.repo.Valid()
      ensures r.Ok? <==> subscriptionID in old(subscriptionService.repo.subscriptions)
      ensures r.Err? ==> r.msg == SubscriptionStore.NotFound
      ensures r.Err? ==> subscriptionService.repo.subscriptions == old(subscriptionService.repo.subscriptions)
      ensures r.Ok? ==> subscriptionService.repo.subscriptions == old(subscriptionService.repo.subscriptions)
        [subscriptionID := old(subscriptionService.repo.subscriptions)[subscriptionID].(status := Subscriptions.Canceled)]
    {
      r := subscriptionService.Cancel(subscriptionID);
    }

    /** The stored subscription in its billing form. */
    method GetSubscription(subscriptionID: string) returns (r: Result<Subscription>)
      ensures subscriptionID !in subscriptionService.repo.subscriptions ==> r == Err(SubscriptionStore.NotFound)
      ensures subscriptionID in subscriptionService.repo.subscriptions ==>
        var s := subscriptionService.repo.subscriptions[subscriptionID];
        r == Ok(Subscription(s.id, s.userId, s.planId, s.status, s.startDate, s.endDate))
    {
      var s := subscriptionService.Get(subscriptionID);
      if s.Err? {
        return Err(s.msg);
      }
      var v := s.value;
      r := Ok(Subscription(v.id, v.userId, v.planId, v.status, v.startDate, v.endDate));
    }

    /** The catalogue; it never fails. */
    method ListPlans() returns (r: Result<seq<Plan>>)
      ensures r == Ok(plans)
    {
      r := Ok(plans);
    }

    /** The tracker's summary of the window, with the subscription and the
        window's bounds filled in; a tracker error is passed on as is. */
    method GetUsage(subscriptionID: string, start: int, end: int) returns (r: Result<BillingUsage.UsageSummary>)
      ensures var s := UsageStore.Selected(usageTracker.repo.records, subscriptionID, start, end);
        && (s == [] ==> r == Err("no usage records found"))
        && (s != [] ==>
              var u := UsageTracker.Summary(subscriptionID, s);
              r == Ok(BillingUsage.UsageSummary(subscriptionID, start, end, "", u.serverCount,
                                                u.cpuHours, u.memoryGBHours, u.networkGB, u.storageGB)))
    {
      var usageData := usageTracker.GetUsage(subscriptionID, start, end);
      if usageData.Err? {
        return Err(usageData.msg);
      }
      var u := usageData.value;
      r := Ok(BillingUsage.UsageSummary(subscriptionID, start, end, "", u.serverCount,
                                        u.cpuHours, u.memoryGBHours, u.networkGB, u.storageGB));
    }

    /** Records nothing and always answers a completed payment in USD of the
        given amount for the subscription. */
    method ProcessPayment(subscriptionID: string, amount: real, now: int) returns (r: Result<Payment>)
      ensures r.Ok?
      ensures r.value.subscriptionId == subscriptionID && r.value.amount == amount
      ensures r.value.status == "completed" && r.value.currency == "USD"
      ensures r.value.id == GeneratedUuid && r.value.createdAt == now
    {
      r := Ok(Payment(GeneratedUuid, subscriptionID, amount, "USD", "completed", now));
    }
  }
}
