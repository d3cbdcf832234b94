/**
 * Subscription records and their persistence in the browser's local
 * storage: the load and save helpers of the page, as reads and writes of a
 * key-value map.
 */
module Subscriptions {
  import opened Wrappers
  import opened JsObject
  import opened Notice

  /** One record per subscribed product; `subscribedAt` is a timestamp. */
  datatype Subscription = Subscription(email: string, subscribedAt: int, productName: string)

  /** The store: product name to its record, in insertion order. */
  type Store = Obj<Subscription>

  const SubscriptionsKey := "productSubscriptions"
  const EmailKey := "userEmail"
  const LegacyKey := "subscribedProducts"

  /**
   * A stored value. `Text` is a string as written; `Document(s)` is the JSON
   * text `JSON.stringify` produces for the store `s`, which `JSON.parse` reads
   * back as `s`. Any `Text` under the subscriptions key is taken to be text
   * that does not parse as a store.
   */
  datatype Item = Text(text: string) | Document(store: Store)

  datatype Loaded = Loaded(store: Store, warning: Option<Toast>)

  const StorageLoadError := Toast("Storage Error", "Failed to load your subscription preferences", true)

  /**
   * Reading the store back: the saved document, or the empty store when the
   * key is missing or empty (no warning) or holds text that does not parse
   * (with the "Storage Error" warning).
   */
  function LoadSubscriptions(storage: map<string, Item>): (r: Loaded)
    ensures SubscriptionsKey in storage && storage[SubscriptionsKey].Document? ==>
              r == Loaded(storage[SubscriptionsKey].store, None)
    ensures SubscriptionsKey !in storage || storage[SubscriptionsKey] == Text("") ==>
              r == Loaded([], None)
    ensures r.warning.Some? <==>
              SubscriptionsKey in storage && storage[SubscriptionsKey].Text? && storage[SubscriptionsKey].text != ""
    ensures r.warning.Some? ==> r == Loaded([], Some(StorageLoadError))
  {
    if SubscriptionsKey in storage then
      match storage[SubscriptionsKey]
      case Document(s) => Loaded(s, None)
      case Text(t) => if t == "" then Loaded([], None) else Loaded([], Some(StorageLoadError))
    else
      Loaded([], None)
  }

  /**
   * The storage after saving a store: the whole store is written under the
   * subscriptions key, and when the store is not empty the email of its FIRST
   * record in iteration order is cached under the email key. Everything else
   * is left alone.
   */
  function WriteSubscriptions(storage: map<string, Item>, s: Store): (r: map<string, Item>)
    ensures LoadSubscriptions(r) == Loaded(s, None)
    ensures s != [] ==> EmailKey in r && r[EmailKey] == Text(s[0].1.email)
    ensures s == [] ==> (EmailKey in r <==> EmailKey in storage)
    ensures s == [] && EmailKey in storage ==> r[EmailKey] == storage[EmailKey]
    ensures r.Keys == storage.Keys + {SubscriptionsKey} + (if s == [] then {} else {EmailKey})
    ensures forall k :: k in storage && k != SubscriptionsKey && k != EmailKey ==> r[k] == storage[k]
  {
    var written := storage[SubscriptionsKey := Document(s)];
    if s != [] then written[EmailKey := Text(Values(s)[0].email)] else written
  }

  /**
   * The cached email is the first record's, not the newest one's: adding a
   * record for a product the store did not have does not change it.
   */
  lemma {:induction false} CachedEmailIsFirstRecord(storage: map<string, Item>, s: Store, p: string, r: Subscription)
    requires s != [] && p !in KeySet(s)
    ensures WriteSubscriptions(storage, Put(s, p, r))[EmailKey] == Text(s[0].1.email)
  {
    PutNew(s, p, r);
  }
}
