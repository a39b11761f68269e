/** backend/internal/subscriptions/repository.go: subscriptions kept in a map
    keyed by their id. The record type is declared in
    backend/internal/subscriptions/service.go. */
module SubscriptionStore {
  import opened Common

  /** The dates are Unix seconds. */
  datatype Subscription = Subscription(id: string, userId: string, planId: string, status: string,
                                       startDate: int, endDate: int, renewalDate: int,
                                       paymentMethodId: string)

  const NotFound: string := "subscription not found"

  class InMemorySubscriptionRepository {
    var subscriptions: map<string, Subscription>

    /** Every subscription is filed under its own id. */
    ghost predicate Valid()
      reads this
    {
      forall id :: id in subscriptions ==> subscriptions[id].id == id
    }

    constructor ()
      ensures Valid() && subscriptions == map[]
    {
      subscriptions := map[];
    }

    /** Stores a copy under its id, replacing any subscription with that id;
        it never fails. */
    method Save(subscription: Subscription) returns (r: Result<()>)
      requires Valid()
      modifies this
      ensures Valid()
      ensures r.Ok? && subscriptions == old(subscriptions)[subscription.id := subscription]
    {
      subscriptions := subscriptions[subscription.id := subscription];
      r := Ok(());
    }

    /** The subscription stored under the id, or "subscription not found". */
    method Get(id: string) returns (r: Result<Subscription>)
      ensures id in subscriptions <==> r.Ok?
      ensures id in subscriptions ==> r.value == subscriptions[id]
      ensures id !in subscriptions ==> r == Err(NotFound)
    {
      if id !in subscriptions {
        return Err(NotFound);
      }
      r := Ok(subscriptions[id]);
    }

    /** The user's subscriptions, each once, in the unspecified order in
        which Go ranges over a map; `ids` names the key of each entry. */
    method ListByUser(userID: string) returns (r: Result<seq<Subscription>>, ghost ids: seq<string>)
      ensures r.Ok?
      ensures |ids| == |r.value|
      ensures forall j :: 0 <= j < |ids| ==> ids[j] in subscriptions && r.value[j] == subscriptions[ids[j]]
      ensures forall j :: 0 <= j < |ids| ==> r.value[j].userId == userID
      ensures forall j, k :: 0 <= j < k < |ids| ==> ids[j] != ids[k]
      ensures forall id :: id in subscriptions && subscriptions[id].userId == userID ==> id in ids
    {
      var rest := subscriptions.Keys;
      var userSubs := [];
      ids := [];
      while rest != {}
        invariant rest <= subscriptions.Keys
        invariant |ids| == |userSubs|
        invariant forall j :: 0 <= j < |ids| ==> ids[j] in subscriptions && ids[j] !in rest && userSubs[j] == subscriptions[ids[j]]
        invariant forall j :: 0 <= j < |ids| ==> userSubs[j].userId == userID
        invariant forall j, k :: 0 <= j < k < |ids| ==> ids[j] != ids[k]
        invariant forall id :: id in subscriptions && id !in rest && subscriptions[id].userId == userID ==> id in ids
        decreases |rest|
      {
        var id := Pick(rest);
        if subscriptions[id].userId == userID {
          userSubs := userSubs + [subscriptions[id]];
          ids := ids + [id];
        }
        rest := rest - {id};
      }
      r := Ok(userSubs);
    }
  }

  /** A Get after a Save of the same id answers the saved subscription. */
  method SaveThenGet(repo: InMemorySubscriptionRepository, subscription: Subscription) returns (r: Result<Subscription>)
    requires repo.Valid()
    modifies repo
    ensures r == Ok(subscription)
  {
    var _ := repo.Save(subscription);
    r := repo.Get(subscription.id);
  }
}
