/**
 * The page's state and the operations on it: the subscription store with its
 * mirror set of subscribed names, the cached email, local storage, the two
 * catalogs and the view settings, plus the subscribe and unsubscribe
 * handlers that reconcile the store with the notification service.
 */
module Page {
  import opened Wrappers
  import opened JsObject
  import opened Notice
  import opened Gateway
  import opened Subscriptions
  import opened Stats
  import opened Catalog

  const EmailRequired := Toast("Email Required", "Please enter your email address", true)
  const SubscribeError := Toast("Error", "Failed to subscribe to notifications", true)
  const UnsubscribeError := Toast("Error", "Failed to unsubscribe from notifications", true)
  const Cleared := Toast("Cleared", "All subscriptions have been cleared", false)
  const FetchError := Toast("Error", "Failed to fetch products", true)

  function SubscribedToast(productName: string): Toast
  {
    Toast("Subscribed!", "You'll be notified when " + productName + " becomes available", false)
  }

  function UnsubscribedToast(productName: string): Toast
  {
    Toast("Unsubscribed", "You won't receive notifications for " + productName, false)
  }

  class SubscriptionPage {
    var allProducts: ProductsData
    var availableProducts: ProductsData
    var searchTerm: string
    var email: string
    var subscribedProducts: set<string>
    var storedSubscriptions: Store
    var activeTab: string
    var storage: map<string, Item>

    /** The set of subscribed names always mirrors the store's keys. */
    ghost predicate Valid()
      reads this
    {
      subscribedProducts == KeySet(storedSubscriptions)
    }

    /** The page as first rendered, over whatever local storage already holds. */
    constructor (browserStorage: map<string, Item>)
      ensures Valid()
      ensures allProducts == [] && availableProducts == [] && searchTerm == "" && email == ""
      ensures storedSubscriptions == [] && activeTab == AllTab && storage == browserStorage
    {
      allProducts, availableProducts := [], [];
      searchTerm, email := "", "";
      subscribedProducts, storedSubscriptions := {}, [];
      activeTab := AllTab;
      storage := browserStorage;
    }

    /** The mount effect: restore the store, its name set and, if one is cached, the email. */
    method RestoreFromStorage() returns (warning: Option<Toast>)
      modifies this`storedSubscriptions, this`subscribedProducts, this`email
      ensures Valid()
      ensures Loaded(storedSubscriptions, warning) == LoadSubscriptions(storage)
      ensures email == if EmailKey in storage && storage[EmailKey].Text? && storage[EmailKey].text != ""
                       then storage[EmailKey].text else old(email)
    {
      var loaded := LoadSubscriptions(storage);
      storedSubscriptions := loaded.store;
      subscribedProducts := KeySet(loaded.store);
      if EmailKey in storage && storage[EmailKey].Text? && storage[EmailKey].text != "" {
        email := storage[EmailKey].text;
      }
      warning := loaded.warning;
    }

    /** Persist a whole store and make it the current one. */
    method SaveSubscriptionsToStorage(subscriptions: Store)
      modifies this`storage, this`storedSubscriptions, this`subscribedProducts
      ensures Valid()
      ensures storedSubscriptions == subscriptions
      ensures storage == WriteSubscriptions(old(storage), subscriptions)
      ensures LoadSubscriptions(storage) == Loaded(subscriptions, None)
    {
      storage := WriteSubscriptions(storage, subscriptions);
      storedSubscriptions := subscriptions;
      subscribedProducts := KeySet(subscriptions);
    }

    /** Record (or re-record) a subscription for `productName`, stamped `now`. */
    method AddSubscription(productName: string, userEmail: string, now: int)
      modifies this`storage, this`storedSubscriptions, this`subscribedProducts
      ensures Valid()
      ensures storedSubscriptions == Put(old(storedSubscriptions), productName, Subscription(userEmail, now, productName))
      ensures storage == WriteSubscriptions(old(storage), storedSubscriptions)
      ensures Get(storedSubscriptions, productName) == Some(Subscription(userEmail, now, productName))
      ensures forall q :: q != productName ==> Get(storedSubscriptions, q) == Get(old(storedSubscriptions), q)
      ensures subscribedProducts == KeySet(old(storedSubscriptions)) + {productName}
    {
      var record := Subscription(userEmail, now, productName);
      var newSubscriptions := Put(storedSubscriptions, productName, record);
      forall q ensures Get(newSubscriptions, q) == if q == productName then Some(record) else Get(storedSubscriptions, q) {
        GetPut(storedSubscriptions, productName, record, q);
      }
      SaveSubscriptionsToStorage(newSubscriptions);
    }

    /** Drop the record for `productName`, if there is one. */
    method RemoveSubscription(productName: string)
      modifies this`storage, this`storedSubscriptions, this`subscribedProducts
      ensures Valid()
      ensures storedSubscriptions == Delete(old(storedSubscriptions), productName)
      ensures storage == WriteSubscriptions(old(storage), storedSubscriptions)
      ensures Get(storedSubscriptions, productName) == None
      ensures forall q :: q != productName ==> Get(storedSubscriptions, q) == Get(old(storedSubscriptions), q)
      ensures productName !in KeySet(old(storedSubscriptions)) ==> storedSubscriptions == old(storedSubscriptions)
      ensures subscribedProducts == KeySet(old(storedSubscriptions)) - {productName}
    {
      var newSubscriptions := Delete(storedSubscriptions, productName);
      forall q ensures Get(newSubscriptions, q) == if q == productName then None else Get(storedSubscriptions, q) {
        GetDelete(storedSubscriptions, productName, q);
      }
      if productName !in KeySet(storedSubscriptions) {
        DeleteAbsent(storedSubscriptions, productName);
      }
      SaveSubscriptionsToStorage(newSubscriptions);
    }

    /** The record for `productName`, or none: present exactly for the subscribed names. */
    function GetSubscriptionInfo(productName: string): (r: Option<Subscription>)
      reads this
      requires Valid()
      ensures r.Some? <==> productName in subscribedProducts
      ensures r.Some? ==> (productName, r.value) in storedSubscriptions
    {
      Get(storedSubscriptions, productName)
    }

    /** Whether a product card shows as subscribed: exactly when the store has its record. */
    function IsSubscribed(name: string): (b: bool)
      reads this
      requires Valid()
      ensures b <==> Get(storedSubscriptions, name).Some?
    {
      name in subscribedProducts
    }

    /** Every record, in iteration order: one per subscribed name. */
    function GetAllSubscriptions(): (r: seq<Subscription>)
      reads this
      requires Valid()
      ensures |r| == |storedSubscriptions| == |subscribedProducts|
      ensures forall i :: 0 <= i < |r| ==> r[i] == storedSubscriptions[i].1
    {
      KeyCount(storedSubscriptions);
      Values(storedSubscriptions)
    }

    /** Empty the store locally; the cached email stays and the service is not told. */
    method ClearAllSubscriptions() returns (toast: Toast)
      modifies this`storage, this`storedSubscriptions, this`subscribedProducts
      ensures Valid()
      ensures storedSubscriptions == [] && subscribedProducts == {}
      ensures storage == old(storage) - {SubscriptionsKey, LegacyKey}
      ensures EmailKey in old(storage) ==> EmailKey in storage && storage[EmailKey] == old(storage)[EmailKey]
      ensures LoadSubscriptions(storage) == Loaded([], None)
      ensures toast == Cleared
    {
      storage := storage - {SubscriptionsKey, LegacyKey};
      storedSubscriptions := [];
      subscribedProducts := {};
      toast := Cleared;
    }

    /** The statistics over the current records; their total is the number of subscribed names. */
    method GetSubscriptionStats() returns (st: Stats)
      requires Valid()
      ensures st.totalSubscriptions == |subscribedProducts|
      ensures SumValues(st.emailBreakdown) == |subscribedProducts|
      ensures st.uniqueEmails == |EmailSet(GetAllSubscriptions())| <= st.totalSubscriptions
      ensures st.emailBreakdown == Tally(GetAllSubscriptions())
      ensures st.oldestSubscription == Oldest(GetAllSubscriptions())
      ensures st.oldestSubscription.None? <==> subscribedProducts == {}
    {
      var subs := GetAllSubscriptions();
      st := SubscriptionStats(subs);
      assert |subs| == |subscribedProducts|;
      assert subs == [] <==> subscribedProducts == {};
    }

    /**
     * Subscribe to `productName` with the current email. An empty email stops
     * before any request; otherwise the store changes only on an ok response.
     */
    method HandleSubscribe(productName: string, now: int, outcome: Outcome) returns (request: Option<Request>, toast: Toast)
      requires Valid()
      modifies this`storage, this`storedSubscriptions, this`subscribedProducts
      ensures Valid()
      ensures request == if email == "" then None else Some(Request(NotifyRoute, email, productName))
      ensures toast == if email == "" then EmailRequired else
                         match outcome
                         case Ok => SubscribedToast(productName)
                         case Rejected(body) => Toast("Subscription Failed", body, true)
                         case TransportError => SubscribeError
      ensures email == "" || !outcome.Ok? ==>
                storedSubscriptions == old(storedSubscriptions) && subscribedProducts == old(subscribedProducts)
                && storage == old(storage)
      ensures email != "" && outcome.Ok? ==>
                && storedSubscriptions == Put(old(storedSubscriptions), productName, Subscription(email, now, productName))
                && Get(storedSubscriptions, productName) == Some(Subscription(email, now, productName))
                && (forall q :: q != productName ==> Get(storedSubscriptions, q) == Get(old(storedSubscriptions), q))
                && storage == WriteSubscriptions(old(storage), storedSubscriptions)
    {
      if email == "" {
        return None, EmailRequired;
      }
      request := Some(Request(NotifyRoute, email, productName));
      match outcome {
        case Ok =>
          AddSubscription(productName, email, now);
          toast := SubscribedToast(productName);
        case Rejected(body) =>
          toast := Toast("Subscription Failed", body, true);
        case TransportError =>
          toast := SubscribeError;
      }
    }

    /**
     * Unsubscribe from `productName` with the current email (not checked for
     * emptiness). The record is removed only on an ok response.
     */
    method HandleUnsubscribe(productName: string, outcome: Outcome) returns (request: Request, toast: Toast)
      requires Valid()
      modifies this`storage, this`storedSubscriptions, this`subscribedProducts
      ensures Valid()
      ensures request == Request(RemoveRoute, email, productName)
      ensures toast == match outcome
                       case Ok => UnsubscribedToast(productName)
                       case Rejected(body) => Toast("Unsubscribe Failed", body, true)
                       case TransportError => UnsubscribeError
      ensures !outcome.Ok? ==>
                storedSubscriptions == old(storedSubscriptions) && subscribedProducts == old(subscribedProducts)
                && storage == old(storage)
      ensures outcome.Ok? ==>
                && storedSubscriptions == Delete(old(storedSubscriptions), productName)
                && Get(storedSubscriptions, productName) == None
                && (forall q :: q != productName ==> Get(storedSubscriptions, q) == Get(old(storedSubscriptions), q))
                && storage == WriteSubscriptions(old(storage), storedSubscriptions)
    {
      request := Request(RemoveRoute, email, productName);
      match outcome {
        case Ok =>
          RemoveSubscription(productName);
          toast := UnsubscribedToast(productName);
        case Rejected(body) =>
          toast := Toast("Unsubscribe Failed", body, true);
        case TransportError =>
          toast := UnsubscribeError;
      }
    }

    /**
     * The product fetch effect: both catalogs are set together once both
     * have been read, or neither is and an error notice is shown.
     */
    method ReceiveProducts(fetched: Option<(ProductsData, ProductsData)>) returns (toast: Option<Toast>)
      modifies this`allProducts, this`availableProducts
      ensures fetched.Some? ==> allProducts == fetched.value.0 && availableProducts == fetched.value.1 && toast == None
      ensures fetched.None? ==> allProducts == old(allProducts) && availableProducts == old(availableProducts)
                                && toast == Some(FetchError)
    {
      match fetched {
        case Some((all, available)) =>
          allProducts, availableProducts := all, available;
          toast := None;
        case None =>
          toast := Some(FetchError);
      }
    }

    method SetEmail(newEmail: string)
      modifies this`email
      ensures email == newEmail
    {
      email := newEmail;
    }

    method SetSearchTerm(term: string)
      modifies this`searchTerm
      ensures searchTerm == term
    {
      searchTerm := term;
    }

    method SetActiveTab(tab: string)
      modifies this`activeTab
      ensures activeTab == tab
    {
      activeTab := tab;
    }

    /** The catalog the active tab shows: everything on the "all" tab, the available products on any other. */
    function GetCurrentProducts(): (r: ProductsData)
      reads this
      ensures activeTab == AllTab ==> r == allProducts
      ensures activeTab != AllTab ==> r == availableProducts
    {
      if activeTab == AllTab then allProducts else availableProducts
    }

    /** The entries shown: exactly those of the active catalog that match the search term, in order. */
    function FilteredProducts(): (r: seq<Entry<Product>>)
      reads this
      ensures forall e :: e in r <==> e in GetCurrentProducts() && Matches(e.0, searchTerm)
      ensures Subsequence(r, GetCurrentProducts())
      ensures searchTerm == "" ==> r == GetCurrentProducts()
    {
      Filter(GetCurrentProducts(), searchTerm)
    }
  }
}
