/** Client walks through the page's operations, proved from the contracts alone. */
module Examples {
  import opened Wrappers
  import opened JsObject
  import opened Subscriptions
  import opened Gateway
  import opened Catalog
  import opened Page

  method SubscribeAccepted()
  {
    var page := new SubscriptionPage(map[]);
    page.SetEmail("a@x.com");
    var request, toast := page.HandleSubscribe("High Protein Milk", 100, Ok);
    assert request == Some(Request(NotifyRoute, "a@x.com", "High Protein Milk"));
    PutNew([], "High Protein Milk", Subscription("a@x.com", 100, "High Protein Milk"));
    assert page.storedSubscriptions == [("High Protein Milk", Subscription("a@x.com", 100, "High Protein Milk"))];
    assert page.storage[EmailKey] == Text("a@x.com");
  }

  method SubscribeRejected()
  {
    var page := new SubscriptionPage(map[]);
    page.SetEmail("a@x.com");
    var request, toast := page.HandleSubscribe("High Protein Milk", 100, Rejected("already subscribed"));
    assert request.Some?;
    assert page.storedSubscriptions == [] && page.storage == map[];
    assert toast.description == "already subscribed";
  }

  method SubscribeWithoutEmail()
  {
    var page := new SubscriptionPage(map[]);
    var request, toast := page.HandleSubscribe("High Protein Milk", 100, Ok);
    assert request == None && toast == EmailRequired;
    assert page.storedSubscriptions == [];
  }

  method UnsubscribeFailsInTransit(stored: Store)
  {
    var page := new SubscriptionPage(map[SubscriptionsKey := Document(stored)]);
    var warning := page.RestoreFromStorage();
    assert page.storedSubscriptions == stored && warning == None;
    var request, toast := page.HandleUnsubscribe("A", TransportError);
    assert page.storedSubscriptions == stored;
  }

  method ClearKeepsCachedEmail()
  {
    var page := new SubscriptionPage(map[]);
    page.AddSubscription("A", "a@x.com", 1);
    page.AddSubscription("B", "b@x.com", 2);
    assert page.storage[EmailKey] == Text("a@x.com");
    var toast := page.ClearAllSubscriptions();
    assert page.storedSubscriptions == [] && SubscriptionsKey !in page.storage;
    assert page.storage[EmailKey] == Text("a@x.com");
  }

  method AddThenRemoveRestores(stored: Store, p: string)
    requires p !in KeySet(stored)
  {
    var page := new SubscriptionPage(map[SubscriptionsKey := Document(stored)]);
    var warning := page.RestoreFromStorage();
    page.AddSubscription(p, "a@x.com", 7);
    page.RemoveSubscription(p);
    DeleteUndoesPut(stored, p, Subscription("a@x.com", 7, p));
    assert page.storedSubscriptions == stored;
  }

  method EmptySearchShowsAll()
  {
    var x := Product(0, 1.5, []);
    var y := Product(1, 2.0, ["y.png"]);
    var catalog: ProductsData := Put(Put([], "X", x), "Y", y);
    PutNew([], "X", x);
    PutNew([("X", x)], "Y", y);
    assert Filter(catalog, "") == [("X", x), ("Y", y)];
  }
}
