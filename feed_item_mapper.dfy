/**
 * `FeedItemMapper`: turns a received HTTP body and status code into a feed
 * result. A status other than 200, a body that is not JSON, or JSON that
 * does not decode as the `{"items": [...]}` envelope all give
 * `Failure(InvalidData)`; otherwise every wire item becomes a `FeedItem`, in
 * order. The decoding functions follow what Swift's synthesized `Decodable`
 * conformances of `Root` and `RSFeedItem` accept.
 */
module FeedItemMapper {
  import opened Foundation
  import opened FeedItems
  import opened FeedLoader

  /** `OK_200`: the only status whose body is decoded. */
  const StatusOk: int := 200

  /** `RSFeedItem`: one item as it appears on the wire, its image link keyed `image`. */
  datatype WireItem = WireItem(id: Uuid, description: Option<string>, location: Option<string>, image: Url)
  {
    /** `RSFeedItem.item`: the domain record, with `image` renamed to `imageUrl`. */
    function Item(): (r: FeedItem)
      ensures r.id == id && r.description == description && r.location == location
      ensures r.imageUrl == image
    {
      FeedItem(id, description, location, image)
    }
  }

  /** `Root`: the decoded envelope. */
  datatype Root = Root(items: seq<WireItem>)
  {
    /** `Root.feed`: every wire item converted to a `FeedItem`, in order. */
    function Feed(): (r: seq<FeedItem>)
      ensures |r| == |items|
      ensures forall i :: 0 <= i < |items| ==> r[i] == items[i].Item()
    {
      seq(|items|, i requires 0 <= i < |items| => items[i].Item())
    }
  }

  // ---------------------------------------------------------------------
  // Decoding, as the synthesized `Decodable` initialisers do it
  // ---------------------------------------------------------------------

  /** A required `UUID` field: the key must hold a JSON string that `UUID(uuidString:)` accepts. */
  function RequiredUuid(fields: map<string, Json>, key: string): Option<Uuid>
  {
    if key in fields && fields[key].JString? then ParseUuid(fields[key].text) else None
  }

  /** A required `URL` field: the key must hold a JSON string that `URL(string:)` accepts. */
  function RequiredUrl(fields: map<string, Json>, key: string): Option<Url>
  {
    if key in fields && fields[key].JString? then ParseUrl(fields[key].text) else None
  }

  /**
   * A `String?` field (`decodeIfPresent`): an absent key or `null` decodes
   * to `nil`, a string to itself; any other JSON value is a type mismatch,
   * which is a decoding failure (the outer `None`).
   */
  function OptionalString(fields: map<string, Json>, key: string): Option<Option<string>>
  {
    if key !in fields || fields[key] == JNull then Some(None)
    else if fields[key].JString? then Some(Some(fields[key].text))
    else None
  }

  /** `RSFeedItem.init(from:)`: the value must be an object; keys other than the four are ignored. */
  function DecodeItem(j: Json): (r: Option<WireItem>)
    ensures r.Some? ==> WireItemDenotes(j, r.value.Item())
    ensures forall item :: WireItemDenotes(j, item) ==> r.Some? && r.value.Item() == item
  {
    if !j.JObject? then None
    else
      var id := RequiredUuid(j.fields, "id");
      var description := OptionalString(j.fields, "description");
      var location := OptionalString(j.fields, "location");
      var image := RequiredUrl(j.fields, "image");
      if id.Some? && description.Some? && location.Some? && image.Some?
      then Some(WireItem(id.value, description.value, location.value, image.value))
      else None
  }

  /**
   * `[RSFeedItem].init(from:)`: the array decodes only if every element does,
   * and then element by element, in order.
   */
  function DecodeItems(js: seq<Json>): (r: Option<seq<WireItem>>)
    ensures r.Some? <==> forall i :: 0 <= i < |js| ==> DecodeItem(js[i]).Some?
    ensures r.Some? ==> |r.value| == |js|
    ensures r.Some? ==> forall i :: 0 <= i < |js| ==> DecodeItem(js[i]) == Some(r.value[i])
  {
    if js == [] then Some([])
    else
      match (DecodeItem(js[0]), DecodeItems(js[1..]))
      case (Some(w), Some(ws)) => Some([w] + ws)
      case _ => None
  }

  /**
   * `Root.init(from:)`: the value must be an object whose `items` key holds
   * an array of decodable items; other top-level keys are ignored.
   */
  function DecodeRoot(j: Json): (r: Option<Root>)
    ensures r.Some? ==> EnvelopeDenotes(j, r.value.Feed())
    ensures forall feed :: EnvelopeDenotes(j, feed) ==> r.Some? && r.value.Feed() == feed
  {
    if j.JObject? && "items" in j.fields && j.fields["items"].JArray? then
      match DecodeItems(j.fields["items"].elems)
      case Some(ws) => Some(Root(ws))
      case None => None
    else None
  }

  /**
   * `FeedItemMapper.map(_:from:)`: the status guard first, then the
   * decoding; every way to fail is `InvalidData`.
   */
  function Map(data: Data, statusCode: int): (r: Result)
    ensures r.Failure? ==> r.error == InvalidData
    ensures statusCode != StatusOk ==> r == Failure(InvalidData)
    ensures data.None? ==> r == Failure(InvalidData)
  {
    if statusCode == StatusOk && data.Some? && DecodeRoot(data.value).Some?
    then Success(DecodeRoot(data.value).value.Feed())
    else Failure(InvalidData)
  }

  // ---------------------------------------------------------------------
  // The wire contract stated declaratively
  // ---------------------------------------------------------------------

  /** An optional string field holds `v`: absent or `null` for `None`, the string itself otherwise. */
  predicate OptionalStringAt(fields: map<string, Json>, key: string, v: Option<string>)
  {
    match v
    case None => key !in fields || fields[key] == JNull
    case Some(s) => key in fields && fields[key] == JString(s)
  }

  /** The JSON value `j` is a wire item that stands for `item`. */
  predicate WireItemDenotes(j: Json, item: FeedItem)
  {
    && j.JObject?
    && "id" in j.fields && j.fields["id"].JString?
    && ParseUuid(j.fields["id"].text) == Some(item.id)
    && "image" in j.fields && j.fields["image"].JString?
    && ParseUrl(j.fields["image"].text) == Some(item.imageUrl)
    && OptionalStringAt(j.fields, "description", item.description)
    && OptionalStringAt(j.fields, "location", item.location)
  }

  /** The JSON value `j` is an envelope whose `items` array stands, element by element, for `feed`. */
  predicate EnvelopeDenotes(j: Json, feed: seq<FeedItem>)
  {
    && j.JObject?
    && "items" in j.fields && j.fields["items"].JArray?
    && |j.fields["items"].elems| == |feed|
    && forall i :: 0 <= i < |feed| ==> WireItemDenotes(j.fields["items"].elems[i], feed[i])
  }

  // ---------------------------------------------------------------------
  // Properties
  // ---------------------------------------------------------------------

  /** One wire item decodes to `item` exactly when it stands for `item`. */
  lemma DecodeItemDenotes(j: Json, item: FeedItem)
    ensures (DecodeItem(j).Some? && DecodeItem(j).value.Item() == item) <==> WireItemDenotes(j, item)
  {
  }

  /**
   * The mapper succeeds with `feed` exactly when the status is 200 and the
   * body is an envelope standing, item by item and in order, for `feed`:
   * same length, same order, each item's fields taken from its wire object
   * with `image` as `imageUrl`.
   */
  lemma MapSucceedsExactly(data: Data, statusCode: int, feed: seq<FeedItem>)
    ensures Map(data, statusCode) == Success(feed)
        <==> statusCode == StatusOk && data.Some? && EnvelopeDenotes(data.value, feed)
  {
  }

  /**
   * Decoding is all or nothing: one element of `items` that does not decode
   * makes the whole response `Failure(InvalidData)`, never a shorter list.
   */
  lemma OneBadItemFailsAll(j: Json, statusCode: int, k: nat)
    requires j.JObject? && "items" in j.fields && j.fields["items"].JArray?
    requires k < |j.fields["items"].elems| && DecodeItem(j.fields["items"].elems[k]).None?
    ensures Map(Some(j), statusCode) == Failure(InvalidData)
  {
  }

  /**
   * The wire object for `item` that the feed-API tests build (`makeItem`):
   * `id` and `image` as strings, `description` and `location` only when present.
   */
  function ItemJson(item: FeedItem, idText: string, imageText: string): (r: Json)
    ensures ParseUuid(idText) == Some(item.id) && ParseUrl(imageText) == Some(item.imageUrl)
        ==> WireItemDenotes(r, item)
  {
    var required := map["id" := JString(idText), "image" := JString(imageText)];
    var withDescription :=
      if item.description.Some? then required["description" := JString(item.description.value)] else required;
    var withLocation :=
      if item.location.Some? then withDescription["location" := JString(item.location.value)] else withDescription;
    JObject(withLocation)
  }

  /** The envelope body the tests build around a list of wire objects (`makeItemsJSON`). */
  function ItemsJson(elems: seq<Json>): Json
  {
    JObject(map["items" := JArray(elems)])
  }

  /**
   * Round trip: items written into the envelope, with texts that Foundation
   * parses back to their `id` and `imageUrl`, come back from a 200 response
   * as exactly the same list. The empty list is the `{"items": []}` case.
   */
  lemma EnvelopeRoundTrip(items: seq<FeedItem>, idTexts: seq<string>, imageTexts: seq<string>)
    requires |idTexts| == |items| && |imageTexts| == |items|
    requires forall i :: 0 <= i < |items| ==> ParseUuid(idTexts[i]) == Some(items[i].id)
    requires forall i :: 0 <= i < |items| ==> ParseUrl(imageTexts[i]) == Some(items[i].imageUrl)
    ensures Map(Some(ItemsJson(seq(|items|, i requires 0 <= i < |items| => ItemJson(items[i], idTexts[i], imageTexts[i])))), StatusOk)
         == Success(items)
  {
  }
}
