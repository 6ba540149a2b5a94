/** The values that flow through the status stream of a crawl request. */
module CrawlEvents {

  /** The `data` field of an event: an opaque JSON document. */
  datatype Payload = Payload(json: string)

  /** A `CrawlEvent` envelope: its `type` tag and its `data`. */
  datatype CrawlEvent = CrawlEvent(kind: string, data: Payload)

  /** The tag that marks the event carrying the crawl's result. */
  const ResultKind: string := "result"

  predicate IsResult(e: CrawlEvent) {
    e.kind == ResultKind
  }

  /**
   * The reason a promise was rejected with.  JavaScript tests it for truthiness
   * (`if (streamError)`), so a falsy reason (`null`, `undefined`, `""`, `0`, `false`)
   * is kept apart from a real error object.
   */
  datatype Rejection = Error(message: string) | FalsyReason

  predicate Truthy(r: Rejection) {
    r.Error?
  }
}
