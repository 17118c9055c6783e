/**
 * The outcome a remote feed load reports to its completion:
 * `RemoteFeedLoader.Result` and `RemoteFeedLoader.Error`. Exactly one of a
 * success carrying the ordered items and a failure carrying one of two error
 * kinds.
 */
module FeedLoader {
  import opened FeedItems

  /** The closed set of failure kinds. */
  datatype Error =
    | Connectivity   // the transport produced no response
    | InvalidData    // a response came back but its status or body is unusable

  datatype Result = Success(items: seq<FeedItem>) | Failure(error: Error)
}
