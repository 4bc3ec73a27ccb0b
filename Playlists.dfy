/** The account endpoints of the server: `/api/liked` and `/api/history`
    (fetch a playlist and project its items to video records) and
    `/api/like` and `/api/unlike` (rate one video). The googleapis client is
    a parameter: `list` stands for `playlistItems.list` (giving the
    response's `data`) and `rate` for `videos.rate` (true when the call
    resolved). */
module Playlists {
  import opened JsValue
  import opened Responses

  datatype PlaylistRequest = PlaylistRequest(playlistId: string, part: seq<string>, maxResults: int)

  const LikedPlaylist := PlaylistRequest("LL", ["snippet"], 20)
  const HistoryPlaylist := PlaylistRequest("HL", ["snippet"], 20)

  /** True when `i.snippet.resourceId.videoId` can be read without a
      TypeError. */
  predicate HasResourceId(item: Value) {
    && !Nullish(item)
    && !Nullish(Get(item, "snippet"))
    && !Nullish(Get(Get(item, "snippet"), "resourceId"))
  }

  /** `snippet.thumbnails?.medium?.url` */
  function MediumThumbnail(snippet: Value): (url: Value)
    requires !Nullish(snippet)
    ensures Nullish(Get(snippet, "thumbnails")) ==> url == Undefined
    ensures !Nullish(Get(snippet, "thumbnails")) && Nullish(Get(Get(snippet, "thumbnails"), "medium")) ==> url == Undefined
    ensures !Nullish(Get(snippet, "thumbnails")) && !Nullish(Get(Get(snippet, "thumbnails"), "medium")) ==>
              url == Get(Get(Get(snippet, "thumbnails"), "medium"), "url")
  {
    OptionalMember(OptionalMember(Get(snippet, "thumbnails"), "medium"), "url")
  }

  /** The record literal built for one playlist item. */
  function FormatItem(item: Value): (r: Result<VideoRecord>)
    ensures r.Ok? <==> HasResourceId(item)
    ensures r.Ok? ==>
              var snippet := Get(item, "snippet");
              && r.value.videoId == Get(Get(snippet, "resourceId"), "videoId")
              && r.value.title == Get(snippet, "title")
              && r.value.thumbnail == MediumThumbnail(snippet)
              && r.value.channelTitle == Get(snippet, "videoOwnerChannelTitle")
              && r.value.publishedAt == Get(snippet, "publishedAt")
  {
    match Member(item, "snippet")
    case Fail(e) => Fail(e)
    case Ok(snippet) =>
      match Member(snippet, "resourceId")
      case Fail(e) => Fail(e)
      case Ok(resourceId) =>
        match Member(resourceId, "videoId")
        case Fail(e) => Fail(e)
        case Ok(videoId) =>
          Ok(VideoRecord(
               videoId,
               Get(snippet, "title"),
               MediumThumbnail(snippet),
               Get(snippet, "videoOwnerChannelTitle"),
               Get(snippet, "publishedAt")))
  }

  /** `items.map(...)` over an array: one record per item, in order; the
      first item that cannot be projected makes the whole map throw. */
  function MapFormat(items: seq<Value>): (r: Result<seq<VideoRecord>>)
    ensures r.Ok? <==> forall i | 0 <= i < |items| :: HasResourceId(items[i])
    ensures r.Ok? ==> |r.value| == |items|
    ensures r.Ok? ==> forall i | 0 <= i < |items| :: FormatItem(items[i]) == Ok(r.value[i])
  {
    if items == [] then Ok([])
    else
      match FormatItem(items[0])
      case Fail(e) => Fail(e)
      case Ok(record) =>
        match MapFormat(items[1..])
        case Fail(e) => Fail(e)
        case Ok(records) => Ok([record] + records)
  }

  /** `(items || []).map(...)`: a missing list is the empty list; a truthy
      value that is not an array has no `map` method. */
  function FormatItems(items: Value): (r: Result<seq<VideoRecord>>)
    ensures !Truthy(items) ==> r == Ok([])
    ensures items.Arr? ==> r == MapFormat(items.elements)
    ensures Truthy(items) && !items.Arr? ==> r.Fail?
  {
    match Or(items, Arr([]))
    case Arr(xs) => MapFormat(xs)
    case _ => Fail("items.map is not a function")
  }

  /** List one playlist and format its items (`response.data.items`). */
  function FetchPlaylist(list: PlaylistRequest -> Result<Value>, request: PlaylistRequest): (r: Result<seq<VideoRecord>>)
    ensures list(request).Fail? ==> r.Fail?
    // `response.data.items` throws when `data` is null or undefined
    ensures list(request).Ok? && Nullish(list(request).value) ==> r.Fail?
    ensures list(request).Ok? && !Nullish(list(request).value) ==> r == FormatItems(Get(list(request).value, "items"))
  {
    match list(request)
    case Fail(e) => Fail(e)
    case Ok(data) =>
      match Member(data, "items")
      case Fail(e) => Fail(e)
      case Ok(items) => FormatItems(items)
  }

  /** GET /api/liked */
  function LikedVideos(list: PlaylistRequest -> Result<Value>): (r: Response)
    ensures r.status == OK <==> FetchPlaylist(list, LikedPlaylist).Ok?
    ensures r.status == OK ==> r.body == Liked(FetchPlaylist(list, LikedPlaylist).value)
    ensures r.status != OK ==> r == Response(SERVER_ERROR, Error("Failed to fetch liked videos"))
  {
    match FetchPlaylist(list, LikedPlaylist)
    case Ok(formatted) => Response(OK, Liked(formatted))
    case Fail(_) => Response(SERVER_ERROR, Error("Failed to fetch liked videos"))
  }

  /** GET /api/history */
  function WatchHistory(list: PlaylistRequest -> Result<Value>): (r: Response)
    ensures r.status == OK <==> FetchPlaylist(list, HistoryPlaylist).Ok?
    ensures r.status == OK ==> r.body == History(FetchPlaylist(list, HistoryPlaylist).value)
    ensures r.status != OK ==> r == Response(SERVER_ERROR, Error("Failed to fetch watch history"))
  {
    match FetchPlaylist(list, HistoryPlaylist)
    case Ok(formatted) => Response(OK, History(formatted))
    case Fail(_) => Response(SERVER_ERROR, Error("Failed to fetch watch history"))
  }

  /** A playlist response without `items` formats to the empty list. */
  lemma MissingItemsAreEmpty(list: PlaylistRequest -> Result<Value>, request: PlaylistRequest)
    requires list(request).Ok? && !Nullish(list(request).value)
    requires Get(list(request).value, "items") == Undefined
    ensures FetchPlaylist(list, request) == Ok([])
  {
  }

  /** An item without a medium thumbnail still formats, with no thumbnail. */
  lemma MissingThumbnailTolerated(item: Value)
    requires HasResourceId(item)
    requires Get(Get(item, "snippet"), "thumbnails") == Undefined
    ensures FormatItem(item).Ok? && FormatItem(item).value.thumbnail == Undefined
  {
  }

  datatype RateRequest = RateRequest(id: Value, rating: string)

  /** A rating handler's response and the `videos.rate` call it made, if any. */
  datatype RateExchange = RateExchange(response: Response, rated: Option<RateRequest>)

  /** Shared body of like/unlike: destructure `videoId`, reject a falsy one
      before building the client, then rate. */
  function RateVideo(body: Value, rating: string, rate: RateRequest -> bool, done: string, failure: string): RateExchange {
    match Member(body, "videoId")
    case Fail(_) => RateExchange(Response(SERVER_ERROR, Error(failure)), None)
    case Ok(videoId) =>
      if !Truthy(videoId) then RateExchange(Response(BAD_REQUEST, Error("Missing videoId")), None)
      else
        var request := RateRequest(videoId, rating);
        if rate(request) then RateExchange(Response(OK, Acknowledged(done)), Some(request))
        else RateExchange(Response(SERVER_ERROR, Error(failure)), Some(request))
  }

  /** POST /api/like */
  function Like(body: Value, rate: RateRequest -> bool): (r: RateExchange)
    ensures !Nullish(body) && !Truthy(Get(body, "videoId")) ==>
              r == RateExchange(Response(BAD_REQUEST, Error("Missing videoId")), None)
    ensures r.rated.Some? <==> !Nullish(body) && Truthy(Get(body, "videoId"))
    ensures r.rated.Some? ==> r.rated.value == RateRequest(Get(body, "videoId"), "like")
    ensures r.rated.Some? ==>
              r.response == if rate(r.rated.value) then Response(OK, Acknowledged("Video liked successfully!"))
                            else Response(SERVER_ERROR, Error("Failed to like video"))
    ensures Nullish(body) ==> r.response == Response(SERVER_ERROR, Error("Failed to like video"))
  {
    RateVideo(body, "like", rate, "Video liked successfully!", "Failed to like video")
  }

  /** POST /api/unlike: rating "none" removes the like. */
  function Unlike(body: Value, rate: RateRequest -> bool): (r: RateExchange)
    ensures !Nullish(body) && !Truthy(Get(body, "videoId")) ==>
              r == RateExchange(Response(BAD_REQUEST, Error("Missing videoId")), None)
    ensures r.rated.Some? <==> !Nullish(body) && Truthy(Get(body, "videoId"))
    ensures r.rated.Some? ==> r.rated.value == RateRequest(Get(body, "videoId"), "none")
    ensures r.rated.Some? ==>
              r.response == if rate(r.rated.value) then Response(OK, Acknowledged("Like removed successfully!"))
                            else Response(SERVER_ERROR, Error("Failed to unlike video"))
    ensures Nullish(body) ==> r.response == Response(SERVER_ERROR, Error("Failed to unlike video"))
  {
    RateVideo(body, "none", rate, "Like removed successfully!", "Failed to unlike video")
  }
}
