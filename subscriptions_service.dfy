/** backend/internal/subscriptions/service.go: creating, cancelling and
    re-planning subscriptions over the repository. The clock is a
    parameter, and so is the date one year after it, which Go computes with
    `AddDate(1, 0, 0)`. */
module Subscriptions {
  import opened Common
  import opened SubscriptionStore

  const Active: string := "active"
  const Canceled: string := "canceled"

  /** What Create makes of the caller's subscription: the constant id,
      status "active", starting now and ending and renewing a year later;
      the user, plan and payment method are kept. */
  function Created(sub: Subscription, now: int, yearLater: int): Subscription
  {
    sub.(id := GeneratedUuid, status := Active, startDate := now, endDate := yearLater, renewalDate := yearLater)
  }

  class SubscriptionService {
    const repo: InMemorySubscriptionRepository

    constructor (repo: InMemorySubscriptionRepository)
      ensures this.repo == repo
    {
      this.repo := repo;
    }

    /** Checks the user and then the plan, and saves nothing when either is
        empty; otherwise stamps the subscription (which becomes `created`)
        and saves it. Since the id is a constant, each Create replaces the
        subscription the previous one saved. */
    method Create(sub: Subscription, now: int, yearLater: int) returns (r: Result<()>, created: Subscription)
      requires repo.Valid()
      modifies repo
      ensures repo.Valid()
      ensures sub.userId == "" ==> r == Err("user ID is required") && created == sub
      ensures sub.userId != "" && sub.planId == "" ==> r == Err("plan ID is required") && created == sub
      ensures r.Err? ==> repo.subscriptions == old(repo.subscriptions)
      ensures r.Ok? <==> sub.userId != "" && sub.planId != ""
      ensures r.Ok? ==> created == Created(sub, now, yearLater)
      ensures r.Ok? ==> repo.subscriptions == old(repo.subscriptions)[GeneratedUuid := created]
    {
      created := sub;
      if sub.userId == "" {
        return Err("user ID is required"), created;
      }
      if sub.planId == "" {
        return Err("plan ID is required"), created;
      }
      created := created.(id := GeneratedUuid, status := Active, startDate := now,
                          endDate := yearLater, renewalDate := yearLater);
      r := repo.Save(created);
    }

    method Get(id: string) returns (r: Result<Subscription>)
      ensures id in repo.subscriptions ==> r == Ok(repo.subscriptions[id])
      ensures id !in repo.subscriptions ==> r == Err(NotFound)
    {
      r := repo.Get(id);
    }

    /** Sets the stored subscription's status to "canceled" and nothing
        else; an unknown id is the repository's error. */
    method Cancel(id: string) returns (r: Result<()>)
      requires repo.Valid()
      modifies repo
      ensures repo.Valid()
      ensures r.Ok? <==> id in old(repo.subscriptions)
      ensures r.Err? ==> r.msg == NotFound && repo.subscriptions == old(repo.subscriptions)
      ensures r.Ok? ==> repo.subscriptions == old(repo.subscriptions)[id := old(repo.subscriptions)[id].(status := Canceled)]
    {
      var sub := repo.Get(id);
      if sub.Err? {
        return Err(sub.msg);
      }
      var canceled := sub.value.(status := Canceled);
      r := repo.Save(canceled);
    }

    method ListByUser(userID: string) returns (r: Result<seq<Subscription>>, ghost ids: seq<string>)
      ensures r.Ok? && |ids| == |r.value|
      ensures forall j :: 0 <= j < |ids| ==> ids[j] in repo.subscriptions && r.value[j] == repo.subscriptions[ids[j]]
      ensures forall j :: 0 <= j < |ids| ==> r.value[j].userId == userID
      ensures forall j, k :: 0 <= j < k < |ids| ==> ids[j] != ids[k]
      ensures forall id :: id in repo.subscriptions && repo.subscriptions[id].userId == userID ==> id in ids
    {
      r, ids := repo.ListByUser(userID);
    }

    /** Replaces the plan of the stored subscription, with no check of the
        plan id, and answers the updated subscription; an unknown id is the
        repository's error. */
    method UpdatePlan(id: string, planID: string) returns (r: Result<Subscription>)
      requires repo.Valid()
      modifies repo
      ensures repo.Valid()
      ensures r.Ok? <==> id in old(repo.subscriptions)
      ensures r.Err? ==> r.msg == NotFound && repo.subscriptions == old(repo.subscriptions)
      ensures r.Ok? ==> r.value == old(repo.subscriptions)[id].(planId := planID)
      ensures r.Ok? ==> repo.subscriptions == old(repo.subscriptions)[id := r.value]
    {
      var sub := repo.Get(id);
      if sub.Err? {
        return Err(sub.msg);
      }
      var updated := sub.value.(planId := planID);
      // Save never fails, so the error check of the Go code passes nothing on.
      var _ := repo.Save(updated);
      r := Ok(updated);
    }
  }

  /** Two successful Creates, for different users, leave one subscription:
      the second, under the constant id. */
  method SecondCreateReplacesFirst(first: Subscription, second: Subscription, now: int, yearLater: int)
    returns (stored: map<string, Subscription>)
    requires first.userId != "" && first.planId != ""
    requires second.userId != "" && second.planId != ""
    ensures stored == map[GeneratedUuid := Created(second, now, yearLater)]
  {
    var repo := new InMemorySubscriptionRepository();
    var service := new SubscriptionService(repo);
    var _, _ := service.Create(first, now, yearLater);
    var _, _ := service.Create(second, now, yearLater);
    stored := repo.subscriptions;
  }
}
