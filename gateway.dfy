/**
 * The boundary to the notification service. The page posts
 * `{email, product}` to one of two local routes, which forward the request
 * upstream; the model sees only the request it sends and the outcome.
 */
module Gateway {
  const NotifyRoute := "/api/notify"
  const RemoveRoute := "/api/notify/remove"

  /** A POST with a JSON body `{email, product}`. */
  datatype Request = Request(route: string, email: string, product: string)

  /**
   * What the call came back with: a response with `ok` set, a response
   * without it (its body is the rejection text), or a thrown `fetch` or
   * `response.text()`.
   */
  datatype Outcome = Ok | Rejected(body: string) | TransportError
}
