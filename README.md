# FeedLoader, modelled in Dafny

A model of the remote feed-loading client of the FeedLoader repository. A
`RemoteFeedLoader` holds an HTTP client and a URL and issues one GET per
`load`. When the client resolves that request, the loader reports exactly one
result to the caller's completion. A transport error becomes
`failure(connectivity)`. A body and status code go to `FeedItemMapper.map`,
which accepts only status 200 with a body that decodes as the
`{"items": [...]}` envelope. It turns every wire item into a `FeedItem`, in
order, renaming `image` to `imageUrl`. Every other response gives
`failure(invalidData)`.

Files, one module each:

- `foundation.dfy` (`Foundation`): Swift's optional, `UUID` and `URL` as
  opaque types, the UUID and URL string parsers as uninterpreted constants,
  the JSON value the decoder reads, and a body (`Data`) as "not JSON" or a
  JSON value.
- `feed_item.dfy` (`FeedItems`): `FeedItem` as a datatype. Its fields cannot
  be reassigned, and two items are equal when all four fields are equal, as
  with the synthesized `Equatable` (strings compared code point by code
  point). `id` and `imageUrl` are not optional;
  `description` and `location` are.
- `feed_loader.dfy` (`FeedLoader`): `Error = Connectivity | InvalidData` and
  `Result = Success(items) | Failure(error)`. These are the
  `RemoteFeedLoader.Error` and `RemoteFeedLoader.Result` that the mapper and
  the tests use. `RemoteFeedLoader.swift` in this revision predates its tests
  and does not declare them.
- `feed_item_mapper.dfy` (`FeedItemMapper`): the decoders of `RSFeedItem` and
  `Root`, `map`, and a declarative statement of the wire contract
  (`EnvelopeDenotes`) that the decoder is proved to meet exactly.
- `feed_api.dfy` (`FeedApi`): the client as the tests' request-log spy
  (`HttpClientSpy`), `RemoteFeedLoader` as a class with its completion
  wiring (`RemoteFeedLoader.Deliver`), and the loader's tests written as methods over the model.

Swift's synthesized `Decodable` decides what is accepted:

- Swift's synthesized `Decodable` ignores keys it does not know, so extra
  keys at the top level or in an item do not make decoding fail.
- An optional field that is present but holds neither a string nor `null`
  is a type mismatch, so the whole body fails.
- `RemoteFeedLoader.swift` in this revision predates its tests: its `load()` takes no completion and its `url` is
  declared `URL?`. The model keeps the optional `url`; `Valid()` proves the
  force unwrap is safe. The completion wiring follows
  `FeedLoaderTests/RemoteFeedLoaderTests.swift:39-70`.

## Model

| member | source | states |
|---|---|---|
| `FeedItemMapper.WireItem.Item` | FeedLoader/FeedItemMapper.swift:27-32 | the domain record keeps the wire `id`, `description` and `location` and takes `imageUrl` from the wire `image` |
| `FeedItemMapper.Root.Feed` | FeedLoader/FeedItemMapper.swift:16-18 | one `FeedItem` per wire item, same length, same order, each the conversion of the wire item at that index |
| `FeedItemMapper.DecodeItem` | FeedLoader/FeedItemMapper.swift:21-25 | a decoded wire item stands for its converted record, and any item a JSON value stands for is exactly what it decodes to |
| `FeedItemMapper.DecodeRoot` | FeedLoader/FeedItemMapper.swift:13-14 | a decoded envelope's feed is one the body stands for, and any feed the body stands for is exactly the decoded one |
| `FeedItemMapper.ItemJson` | FeedLoader/FeedItemMapper.swift:21-25 | the tests' wire object for an item, with texts that parse to its `id` and `imageUrl`, stands for that item |
| `FeedItemMapper.DecodeItems` | FeedLoader/FeedItemMapper.swift:13-14 | the items array decodes exactly when every element decodes, and then to one wire item per element, in order |
| `FeedItemMapper.Map` | FeedLoader/FeedItemMapper.swift:35-43 | any status other than 200 gives `Failure(InvalidData)` whatever the body; a body that is not JSON gives `Failure(InvalidData)`; the only error it can produce is `InvalidData` |
| `FeedItemMapper.DecodeItemDenotes` | FeedLoader/FeedItemMapper.swift:21-32 | a JSON value decodes to a wire item converting to `item` exactly when it is an object with a valid UUID string at `id`, a valid URL string at `image` (which becomes `imageUrl`), and `description`/`location` absent or null for `None`, or a string for `Some` |
| `FeedItemMapper.MapSucceedsExactly` | FeedLoader/FeedItemMapper.swift:12-43 | `map` succeeds with `feed` if and only if the status is 200 and the body is an envelope whose `items` array has the same length as `feed` and stands, element by element and in order, for the items of `feed` |
| `FeedItemMapper.OneBadItemFailsAll` | FeedLoader/FeedItemMapper.swift:37-40 | one undecodable element of `items` makes the response `Failure(InvalidData)`, never a partial list |
| `FeedItemMapper.EnvelopeRoundTrip` | FeedLoader/FeedItemMapper.swift:16-42 | items written into the envelope come back from a 200 response as the same list; optional fields left out decode as absent; the empty list gives `Success([])` |
| `FeedApi.RemoteFeedLoader.Deliver` | FeedLoaderTests/RemoteFeedLoaderTests.swift:39-70 | a completion result is `Failure(Connectivity)` exactly when the transport failed; a response's result is the mapper's, forwarded unchanged |
| `FeedApi.UrlsOf` | FeedLoaderTests/RemoteFeedLoaderTests.swift:95-97 | the request log's URLs, one per message, in the order the requests were issued |
| `FeedApi.HttpClientSpy.constructor` | FeedLoaderTests/RemoteFeedLoaderTests.swift:93-97 | a new client has an empty request log |
| `FeedApi.HttpClientSpy.Get` | FeedLoaderTests/RemoteFeedLoaderTests.swift:99-101 | a GET appends one message with its URL and nothing delivered |
| `FeedApi.HttpClientSpy.Complete` | FeedLoaderTests/RemoteFeedLoaderTests.swift:103-117 | resolving request `index` adds exactly one result, `Deliver(response)`, to that request and changes no other; a pending request ends with a single-element list |
| `FeedApi.RemoteFeedLoader.constructor` | FeedLoader/RemoteFeedLoader.swift:14-17 | stores the client and the URL, leaves the URL non-nil, and issues no request |
| `FeedApi.RemoteFeedLoader.Load` | FeedLoader/RemoteFeedLoader.swift:19-21 | issues exactly one GET, for the stored URL, appended after the requests already logged |
| `FeedApi.IssueLoads` | FeedLoaderTests/RemoteFeedLoaderTests.swift:29-37 | n loads append exactly n requests, all for the stored URL, after the existing log, with no merging |
| `FeedApi.NewLoaderRequestsNothing` | FeedLoaderTests/RemoteFeedLoaderTests.swift:13-18 | after construction the client's URL log is empty |
| `FeedApi.LoadRequestsUrl` | FeedLoaderTests/RemoteFeedLoaderTests.swift:20-27 | one load leaves the log `[url]` |
| `FeedApi.LoadTwiceRequestsTwice` | FeedLoaderTests/RemoteFeedLoaderTests.swift:29-37 | two loads leave the log `[url, url]` |
| `FeedApi.ExpectCompletion` | FeedLoaderTests/RemoteFeedLoaderTests.swift:81-91 | a load resolved once yields a single captured result: `Failure(Connectivity)` for a transport error, the mapper's result for a response |
| `FeedApi.DeliversInvalidDataOnEachNon200` | FeedLoaderTests/RemoteFeedLoaderTests.swift:49-59 | with one load per non-200 status, each resolved at its own index, every completion receives exactly `[Failure(InvalidData)]` |
| `FeedApi.CompletionsNotCrossDelivered` | FeedLoaderTests/RemoteFeedLoaderTests.swift:103-117 | two requests resolved out of order each receive their own result, once |

`map` is a function, so it is a deterministic, stateless function of the
body and the status code.

## Left out

- Deallocation safety: the loader's completion is a no-op once the loader is
  released (`FeedLoaderTests/Feed API/RemoteFeedLoaderTests.swift:100-111`).
  It is about object lifetime and weak references, which the model has no
  notion of.
- Asynchronous delivery and threads: completions run when `Complete` is
  called, in program order.
- Lexing bytes into JSON is left out: a body is "not JSON" or a JSON value;
  numbers are kept as their literal text.
- JSON objects are maps, so duplicate keys cannot be expressed.
- The grammars of UUID and URL strings belong to Foundation. `ParseUuid` and
  `ParseUrl` are uninterpreted constants, so the model says nothing about
  which strings they accept.
- `HTTPURLResponse` is used only through its status code. Its headers and
  HTTP version are not modelled.
- `FeedLoader/FeedLoader.swift` declares `FeedLoaderResult` with an open
  Swift `Error` and the protocol shape `load(completion:)`. The model uses
  the closed error set the mapper and the tests use.
- `FeedLoader/HttpClient.swift` is a bare protocol. The transport is the
  tests' request-log spy.
- `FeedLoaderTests/FeedLoaderTests.swift` is an earlier in-test copy of the
  loader with a hard-coded URL. It is superseded and not modelled.
- The spy does not stop a request being resolved twice. `Complete` then
  appends a second result, as the Swift spy would call the completion again.
  Only a pending request is promised a single-element list.
- FeedItems.FeedItem: two items are equal when their fields are equal as
  Dafny values; Swift compares `description` and `location` by Unicode
  canonical equivalence, so two strings that differ only in normalisation
  (a precomposed accent against a combining one) make equal Swift items but
  distinct items here. The model has no Unicode normalisation.
- FeedItemMapper.Map: which `DecodingError` the decoder raises is not
  modelled, because every decoding error becomes `InvalidData`.
