/**
 * `RemoteFeedLoader` and the transport it drives. The loader keeps the
 * client and the URL it was built with and, on every `load`, issues one GET
 * for that URL. The client is modelled by the request log the feed-API tests
 * keep in their spy: one message per GET, each with the URL and the
 * completion registered for it, resolved later by index.
 *
 * `RemoteFeedLoader.swift` in this revision predates its tests: its `load`
 * takes no completion and the `Result`/`Error` types the mapper and the
 * tests name are not declared in it. The completion wiring
 * (`RemoteFeedLoader.Deliver`) follows what the loader's tests require of
 * it. A message's completion is always the one `RemoteFeedLoader.Load`
 * registers, so the model records, per message, the results that completion
 * has handed to the caller.
 */
module FeedApi {
  import opened Foundation
  import opened FeedItems
  import opened FeedLoader
  import FeedItemMapper

  /** `HTTPClientResult`: what the client passes to a request's completion. */
  datatype ClientResult =
    | SuccessResult(data: Data, statusCode: int)  // a body and the response's status code
    | FailResult                                  // a transport error; its details are never inspected

  /** One GET the client received: its URL, and the results its completion has delivered so far. */
  datatype Message = Message(url: Url, delivered: seq<Result>)

  /** The URLs of a request log, in the order the requests were issued (`baseUrls`). */
  function UrlsOf(messages: seq<Message>): (urls: seq<Url>)
    ensures |urls| == |messages|
    ensures forall i :: 0 <= i < |messages| ==> urls[i] == messages[i].url
  {
    seq(|messages|, i requires 0 <= i < |messages| => messages[i].url)
  }

  /** The transport: records every GET and resolves a recorded one on demand. */
  class HttpClientSpy {
    var messages: seq<Message>

    /** The request at `index` has been issued and its completion has not run yet. */
    predicate Pending(index: nat)
      reads this
    {
      index < |messages| && messages[index].delivered == []
    }

    constructor ()
      ensures messages == []
    {
      messages := [];
    }

    /** `get(from:completion:)`: records one request, nothing delivered yet. */
    method Get(url: Url)
      modifies this
      ensures messages == old(messages) + [Message(url, [])]
    {
      messages := messages + [Message(url, [])];
    }

    /**
     * `complete(with:at:)` and `complete(withStatusCode:at:data:)`: runs the
     * completion of the request at `index` once with `response`. That
     * request's caller receives one more result; no other request is touched.
     * An index outside the log traps in the source, hence the precondition.
     */
    method Complete(response: ClientResult, index: nat)
      requires index < |messages|
      modifies this
      ensures |messages| == |old(messages)|
      ensures messages[index] == Message(old(messages)[index].url, old(messages)[index].delivered + [RemoteFeedLoader.Deliver(response)])
      ensures forall i :: 0 <= i < |messages| && i != index ==> messages[i] == old(messages)[i]
      ensures old(Pending(index)) ==> messages[index].delivered == [RemoteFeedLoader.Deliver(response)]
    {
      var m := messages[index];
      messages := messages[index := Message(m.url, m.delivered + [RemoteFeedLoader.Deliver(response)])];
    }
  }

  class RemoteFeedLoader {
    const client: HttpClientSpy
    /** Declared optional and force-unwrapped by `load`; the constructor always sets it. */
    const url: Option<Url>

    /** The force unwrap in `load` cannot trap. */
    predicate Valid()
    {
      url.Some?
    }

    /** `init(httpClient:url:)`: stores both and issues no request. */
    constructor (httpClient: HttpClientSpy, url: Url)
      ensures Valid()
      ensures client == httpClient && this.url == Some(url)
      ensures httpClient.messages == old(httpClient.messages)
    {
      client := httpClient;
      this.url := Some(url);
    }

    /**
     * The completion `load` registers with the client: a transport error is
     * reported as `Failure(Connectivity)` without any decoding, and a response
     * is handed to the mapper whose result is forwarded unchanged.
     */
    static function Deliver(response: ClientResult): (r: Result)
      ensures r == Failure(Connectivity) <==> response.FailResult?
      ensures response.SuccessResult? ==> r == FeedItemMapper.Map(response.data, response.statusCode)
    {
      match response
      case FailResult => Failure(Connectivity)
      case SuccessResult(data, statusCode) => FeedItemMapper.Map(data, statusCode)
    }

    /**
     * `load(completion:)`: exactly one GET, to the stored URL, appended to the
     * client's log; its completion has delivered nothing yet. The completion
     * it registers is `Deliver`: every message it appends resolves through
     * it. The client and the URL are constants, so no load can change them.
     */
    method Load()
      requires Valid()
      modifies client
      ensures client.messages == old(client.messages) + [Message(url.value, [])]
    {
      client.Get(url.value);
    }
  }

  // ---------------------------------------------------------------------
  // The loader's tests, as clients of the model
  // ---------------------------------------------------------------------

  /** Repeating `load` n times appends n requests, all for the stored URL, in order, none merged. */
  method IssueLoads(sut: RemoteFeedLoader, n: nat)
    requires sut.Valid()
    modifies sut.client
    ensures |sut.client.messages| == |old(sut.client.messages)| + n
    ensures sut.client.messages[..|old(sut.client.messages)|] == old(sut.client.messages)
    ensures forall i :: |old(sut.client.messages)| <= i < |sut.client.messages| ==>
              sut.client.messages[i] == Message(sut.url.value, [])
  {
    for k := 0 to n
      invariant |sut.client.messages| == |old(sut.client.messages)| + k
      invariant sut.client.messages[..|old(sut.client.messages)|] == old(sut.client.messages)
      invariant forall i :: |old(sut.client.messages)| <= i < |sut.client.messages| ==>
                  sut.client.messages[i] == Message(sut.url.value, [])
    {
      sut.Load();
    }
  }

  /** `test_client_urlInNil`: building a loader issues no request. */
  method NewLoaderRequestsNothing(url: Url) returns (urls: seq<Url>)
    ensures urls == []
  {
    var client := new HttpClientSpy();
    var sut := new RemoteFeedLoader(client, url);
    urls := UrlsOf(client.messages);
  }

  /** `test_load_requestDataFromUrl`: one load requests the given URL once. */
  method LoadRequestsUrl(url: Url) returns (urls: seq<Url>)
    ensures urls == [url]
  {
    var client := new HttpClientSpy();
    var sut := new RemoteFeedLoader(client, url);
    sut.Load();
    urls := UrlsOf(client.messages);
  }

  /** `test_load_requestDataFromUrlTwice`: two loads request the URL twice. */
  method LoadTwiceRequestsTwice(url: Url) returns (urls: seq<Url>)
    ensures urls == [url, url]
  {
    var client := new HttpClientSpy();
    var sut := new RemoteFeedLoader(client, url);
    sut.Load();
    sut.Load();
    urls := UrlsOf(client.messages);
  }

  /**
   * The tests' `expect` helper: load, resolve that request with `response`,
   * and collect what the completion received: exactly one result, the
   * connectivity failure for a transport error and the mapper's verdict for
   * a response.
   */
  method ExpectCompletion(url: Url, response: ClientResult) returns (captured: seq<Result>)
    ensures |captured| == 1
    ensures response.FailResult? ==> captured == [Failure(Connectivity)]
    ensures response.SuccessResult? ==> captured == [FeedItemMapper.Map(response.data, response.statusCode)]
  {
    var client := new HttpClientSpy();
    var sut := new RemoteFeedLoader(client, url);
    sut.Load();
    client.Complete(response, 0);
    captured := client.messages[0].delivered;
  }

  /**
   * `test_load_deliversErrorOnNon200HttpResponse`: one loader, one load per
   * sample status, the i-th request resolved with the i-th status; every
   * completion receives exactly `Failure(InvalidData)`, whatever the body.
   */
  method DeliversInvalidDataOnEachNon200(url: Url, codes: seq<int>, data: Data) returns (captured: seq<seq<Result>>)
    requires forall i :: 0 <= i < |codes| ==> codes[i] != FeedItemMapper.StatusOk
    ensures |captured| == |codes|
    ensures forall i :: 0 <= i < |codes| ==> captured[i] == [Failure(InvalidData)]
  {
    var client := new HttpClientSpy();
    var sut := new RemoteFeedLoader(client, url);
    captured := [];
    for k := 0 to |codes|
      invariant sut.Valid() && sut.client == client
      invariant |client.messages| == k && |captured| == k
      invariant forall i :: 0 <= i < k ==> client.messages[i].delivered == [Failure(InvalidData)]
      invariant forall i :: 0 <= i < k ==> captured[i] == [Failure(InvalidData)]
    {
      sut.Load();
      client.Complete(SuccessResult(data, codes[k]), k);
      captured := captured + [client.messages[k].delivered];
    }
  }

  /**
   * Two requests resolved in the opposite order to the one they were issued
   * in: each completion receives its own response's result, once.
   */
  method CompletionsNotCrossDelivered(url: Url, first: ClientResult, second: ClientResult)
    returns (firstCaptured: seq<Result>, secondCaptured: seq<Result>)
    ensures firstCaptured == [RemoteFeedLoader.Deliver(first)]
    ensures secondCaptured == [RemoteFeedLoader.Deliver(second)]
  {
    var client := new HttpClientSpy();
    var sut := new RemoteFeedLoader(client, url);
    sut.Load();
    sut.Load();
    client.Complete(second, 1);
    client.Complete(first, 0);
    firstCaptured := client.messages[0].delivered;
    secondCaptured := client.messages[1].delivered;
  }
}
