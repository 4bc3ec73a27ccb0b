/** The HTTP responses the server's handlers send: a status code and the JSON
    body, one constructor per body shape. */
module Responses {
  import opened JsValue

  /** One entry of `liked` or `history`. A field the playlist item did not
      carry is `Undefined` (and is dropped from the JSON text). */
  datatype VideoRecord = VideoRecord(
    videoId: Value,
    title: Value,
    thumbnail: Value,
    channelTitle: Value,
    publishedAt: Value)

  datatype Body =
    | ChatReply(reply: Value, videos: Value)    // { reply, videos }
    | Liked(liked: seq<VideoRecord>)            // { liked }
    | History(history: seq<VideoRecord>)        // { history }
    | Acknowledged(message: string)             // { success: true, message }
    | Error(error: string)                      // { error }

  datatype Response = Response(status: int, body: Body)

  const OK := 200
  const BAD_REQUEST := 400
  const SERVER_ERROR := 500
}
