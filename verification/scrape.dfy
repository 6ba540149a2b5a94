/**
 * `scrapeUrl`: create a crawl request, then, when asked to wait, consume the
 * monitoring stream until the first `result` event.  Creating the request is an
 * HTTP call and is a parameter here; the stream is what the monitoring generator
 * yielded, together with how it ended.
 */
module Scrape {
  import opened Wrappers
  import opened CrawlEvents
  import Bridge
  import BridgeProperties

  /** The crawl request the service created; only its identity matters here. */
  datatype CrawlRequest = CrawlRequest(uuid: string)

  /** What `scrapeUrl` resolves with: the request itself, or the result's `data`. */
  datatype Scraped = Created(request: CrawlRequest) | ResultData(data: Payload)

  /** How the monitoring generator ended after its last yielded event. */
  datatype StreamEnd = Returned | Threw(reason: Rejection)

  const NoResultMessage: string := "No result received from crawl"

  /** The `data` of the first `result` event, if the stream holds one. */
  function FirstResult(stream: seq<CrawlEvent>): (r: Option<Payload>)
    ensures r.None? <==> forall i :: 0 <= i < |stream| ==> !IsResult(stream[i])
    ensures r.Some? ==>
      exists i :: 0 <= i < |stream| && IsResult(stream[i]) && stream[i].data == r.value
        && forall j :: 0 <= j < i ==> !IsResult(stream[j])
  {
    if stream == [] then None
    else if IsResult(stream[0]) then Some(stream[0].data)
    else
      var r := FirstResult(stream[1..]);
      assert forall j :: 1 <= j < |stream| ==> stream[j] == stream[1..][j - 1];
      r
  }

  /**
   * `scrapeUrl(url, ..., sync)`: without `sync` the created request is returned
   * untouched; otherwise the first `result` event's data, or, when the stream has
   * none, the error the generator threw, or "No result received from crawl" when
   * it returned normally.
   */
  function ScrapeUrl(request: CrawlRequest, sync: bool, stream: seq<CrawlEvent>, end: StreamEnd)
    : (r: Result<Scraped, Rejection>)
    requires end.Threw? ==> Truthy(end.reason)  // the generator throws only a truthy error
    ensures !sync ==> r == Success(Created(request))
    ensures sync ==> (r.Success? <==> exists i :: 0 <= i < |stream| && IsResult(stream[i]))
    ensures sync && r.Success? ==>
      exists i :: 0 <= i < |stream| && IsResult(stream[i])
        && r.value == ResultData(stream[i].data)
        && forall j :: 0 <= j < i ==> !IsResult(stream[j])
    ensures sync && r.Failure? ==>
      r.error == (if end.Threw? then end.reason else Error(NoResultMessage))
  {
    if !sync then Success(Created(request))
    else
      match FirstResult(stream)
      case Some(d) => Success(ResultData(d))
      case None =>
        if end.Threw? then Failure(end.reason) else Failure(Error(NoResultMessage))
  }

  /**
   * On any trace, if every `result` event the stream produced was handed to a
   * waiting resolver, the generator yields no `result` event, so `scrapeUrl`'s
   * loop never finds one.
   */
  lemma HandedOffResultsNeverReachScrape(t: seq<Bridge.Action>)
    requires forall e :: IsResult(e) ==>
      multiset(Bridge.Produced(t))[e] == multiset(Bridge.HandedOffEvents(Bridge.Run(Bridge.Init(), t).1))[e]
    ensures FirstResult(Bridge.Yields(Bridge.Run(Bridge.Init(), t).1)) == None
  {
    var ys := Bridge.Yields(Bridge.Run(Bridge.Init(), t).1);
    BridgeProperties.HandedOffNeverYielded(t);
    forall i | 0 <= i < |ys|
      ensures !IsResult(ys[i])
    {
      assert multiset(ys)[ys[i]] > 0;
    }
  }

  /**
   * A `result` event the stream delivers while the consumer is parked never reaches
   * `scrapeUrl`: the generator drops it and parks again, and once the stream has
   * completed no further pull is ever answered. So the `for await` loop neither
   * sees a result nor finishes, and the call never settles.
   */
  lemma ScrapeMissesHandedOffResult(data: Payload, t: seq<Bridge.Action>)
    requires forall i :: 0 <= i < |t| ==> !t[i].Produce?
    ensures var e := CrawlEvent(ResultKind, data);
      var r := Bridge.Run(Bridge.Init(), [Bridge.Pull, Bridge.Produce(e), Bridge.Pull, Bridge.Complete, Bridge.Pull]);
      && IsResult(e)
      && FirstResult(Bridge.Yields(r.1)) == None
      && (forall i :: 0 <= i < |t| && t[i].Pull? ==> Bridge.Run(r.0, t).1[i] == Bridge.Blocked)
      && FirstResult(Bridge.Yields(Bridge.Run(r.0, t).1)) == None
  {
    var e := CrawlEvent(ResultKind, data);
    BridgeProperties.HandedOffEventIsDropped(e);
    BridgeProperties.ParkedAfterSettleHangs(Bridge.State([], Bridge.Parked, true, None), t);
  }
}
