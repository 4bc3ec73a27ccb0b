# mcp-youtube-agent in Dafny

This project models the core of a chat assistant that recommends YouTube
videos. The assistant has three parts.

- **The chat round (`ChatRound`).** This is the `/api/chat` handler. It checks
  the message, then asks the completion provider once (round 1: the system
  prompt, the user's message and the tool catalogue). If the reply asks for
  tools, it runs each tool call in the order emitted: it decodes the
  arguments (`|| "{}"`), calls the tool and builds one `tool` message carrying
  the call's id. It keeps the result of the last `youtube_search` call as the
  video list. Then it asks the provider again (round 2: the round-1 turns,
  the assistant message and the tool messages). Any throw ends the request
  with the single generic 500. `HandleChat` is the handler step by step, and
  `ToolLoop` is its `for` loop. Both are proved equal to the functions `Chat`
  and `RunTools`. The lemmas then state counts, order, id matching,
  last-search-wins and atomic failure about those functions.
- **The tool and account endpoints (`YoutubeTool`, `Playlists`).** These are
  the `youtube_search` handler (query check, `maxResults || 5`, result passed
  through), the liked/history projection of playlist items into video
  records, and the `videoId` guard of like/unlike.
- **The chat widget (`ChatWidget`).** This is the frontend's state
  (`messages`, `input`, `loading`, `likedVideos`) as a class whose methods are
  the handlers `handleSend`, `fetchLiked` and `toggleLike`. The `forEach`
  that builds the liked map is the loop method `CollectLiked`.

JavaScript values are modelled in `JsValue`. The model covers `undefined`,
truthiness, property reads that throw on `null`/`undefined`, optional chaining
and object-key conversion. Every party the core calls is a parameter: the
completion provider, the tool catalogue (`getToolDefinitionsForOpenAI()`,
which may throw), the tool dispatcher, `JSON.parse` (which may throw) and
`JSON.stringify`, `searchVideos`, the googleapis calls and the widget's
`fetch` round trips. The chat handler also returns the list of calls it made.
That makes statements such as "no completion request is made" and "no tool is
invoked" provable.

Behaviour of the code worth knowing:

- A thrown tool call aborts the whole chat request with the 500
  (`server/server.js:85`, `123-126`). The handler has no degraded tool-result
  path.
- A missing message gets status 400 (`server/server.js:42-44`).
- `youtube_search` with `maxResults` 0 (or any other falsy value) searches
  for 5 results. A negative `maxResults` is passed on unchanged
  (`server/mcp/tools/youtube.js:9`).
- The widget never checks the HTTP status. An error body is shown as an agent
  entry with no text (`ChatWidget.ErrorBodyShownAsReply`).

## Model

| member | source | states |
|---|---|---|
| `ChatRound.HandleChat` | server/server.js:38-127 | the handler, step by step, gives exactly the response and the sequence of collaborator calls of `Chat` |
| `ChatRound.ToolLoop` | server/server.js:81-97 | the loop over `tool_calls` (reassigned `aggregatedVideos`, pushed `toolMessages`, stop at the first throw) gives exactly `RunTools` |
| `ChatRound.ModelName` | server/server.js:46 | the configured model is used when set and non-empty, otherwise `gpt-4o-mini` |
| `ChatRound.ArgumentsText` | server/server.js:84 | absent or empty `arguments` is decoded as the text `{}`; any other arguments text is decoded as given |
| `ChatRound.RunToolsSticky` | server/server.js:84-85 | once a call throws, later tool calls add nothing: no message, no invocation |
| `ChatRound.RunToolsCompletes` | server/server.js:83-97 | the loop completes iff every call decodes and its tool returns; then there is one tool message per call, in order, with the call's name, id and encoded result, and exactly one invocation per call in emission order with the decoded arguments |
| `ChatRound.RunToolsAborts` | server/server.js:84-85 | when call k is the first to throw, exactly the calls before it were invoked, call k only if its arguments decoded, and none after it |
| `ChatRound.LastSearchWins` | server/server.js:78-89 | the aggregated videos are the result of the last `youtube_search` call; other tools never change them; they are `[]` when no search call occurs |
| `ChatRound.NoSearchKeepsVideos` | server/server.js:78-89 | when no call is to `youtube_search`, the aggregated videos stay `[]` |
| `ChatRound.LastSearchVideos` | server/server.js:87-89 | when call j is the last `youtube_search` call, it returned and the aggregated videos are its result |
| `ChatRound.ChatRejectsMissingMessage` | server/server.js:40-44 | a missing or falsy message gives 400 `Message is required` and no collaborator call |
| `ChatRound.ChatFirstRound` | server/server.js:55-75 | round 1 is the first call: exactly `[system, user]` with the user content equal to the message, the tool catalogue and `tool_choice` `auto` |
| `ChatRound.ChatCatalogueFailure` | server/server.js:60 | a throw from `getToolDefinitionsForOpenAI()` after the message check gives the generic 500 before any completion request |
| `ChatRound.ChatFirstRoundFailure` | server/server.js:62-77 | a throwing round 1 gives the generic 500 and no further call |
| `ChatRound.ChatWithoutToolCalls` | server/server.js:118-122 | absent or empty `tool_calls` gives `{reply: firstMsg.content, videos: []}` after round 1 only: no tool and no second request |
| `ChatRound.ChatToolCallEffects` | server/server.js:83-110 | with succeeding tool calls the calls made are round 1, one invocation per tool call in order, then round 2 without the tool catalogue |
| `ChatRound.ToolRoundTrace` | server/server.js:83-110 | when the tool loop completes, the calls made are round 1, the loop's invocations, then round 2 |
| `ChatRound.SecondRoundConversation` | server/server.js:91-103 | round 2's conversation is system, user, `firstMsg`, then one `tool` message per call in order (3 + n turns), each with the call's name and id and the encoded result |
| `ChatRound.ChatToolCallReply` | server/server.js:99-115 | the reply is round 2's content and the videos obey last-search-wins; a throwing round 2 gives the generic 500 |
| `ChatRound.ChatToolFailure` | server/server.js:83-99 | a throw while decoding or running any tool call gives the generic 500; the calls made are exactly round 1 followed by the aborted loop's invocations (so, by `RunToolsAborts`, none after the failing call) and no second round |
| `ChatRound.ChatResponses` | server/server.js:112-126 | every response is a 200 reply, the 400 rejection or the generic 500 `Chat processing error`, never a partial reply |
| `YoutubeTool.MaxResults` | server/mcp/tools/youtube.js:9 | a falsy `maxResults` becomes 5 and a truthy one is kept |
| `YoutubeTool.YoutubeSearch` | server/mcp/tools/youtube.js:7-17 | a search is made iff the arguments exist and `query` is a non-empty string; otherwise it throws with no search; the query goes out verbatim with the defaulted bound and the result is returned unchanged |
| `YoutubeTool.MaxResultsDefault` | server/mcp/tools/youtube.js:9 | `maxResults` absent, null, 0, false or "" searches with 5; a truthy value is passed on |
| `YoutubeTool.SearchPassesThrough` | server/mcp/tools/youtube.js:15-16 | for any arguments with a valid query the run is exactly one `searchVideos` call with the query and `maxResults \|\| 5`, and its outcome unchanged |
| `Playlists.MediumThumbnail` | server/server.js:213 | the thumbnail is `undefined` when `thumbnails` or `medium` is missing, otherwise `medium.url` |
| `Playlists.FormatItem` | server/server.js:210-216 | an item formats iff `snippet.resourceId` can be read; `videoId`, `title`, `channelTitle` and `publishedAt` are copied from the snippet |
| `Playlists.MapFormat` | server/server.js:210-216 | one record per item, in the same order, each the item's projection; fails iff some item does |
| `Playlists.FormatItems` | server/server.js:208-210 | missing `items` yields `[]`; an array is projected item by item; a truthy non-array throws |
| `Playlists.FetchPlaylist` | server/server.js:202-208 | a failed list call fails; a null or undefined `data` fails on reading `items`; otherwise the response's `items` are formatted |
| `Playlists.LikedVideos` | server/server.js:198-223 | 200 with `liked` = the formatted `LL` playlist when listing and formatting succeed, otherwise 500 `Failed to fetch liked videos` |
| `Playlists.WatchHistory` | server/server.js:228-253 | 200 with `history` = the formatted `HL` playlist when listing and formatting succeed, otherwise 500 `Failed to fetch watch history` |
| `Playlists.MissingItemsAreEmpty` | server/server.js:208 | a playlist response without `items` formats to `[]` |
| `Playlists.MissingThumbnailTolerated` | server/server.js:213 | an item without thumbnails still formats, with no thumbnail |
| `Playlists.Like` | server/server.js:152-170 | a falsy `videoId` gives 400 `Missing videoId` with no rate call; otherwise one `like` rating of that id, then 200 or 500 by its outcome |
| `Playlists.Unlike` | server/server.js:175-193 | a falsy `videoId` gives 400 `Missing videoId` with no rate call; otherwise one `none` rating of that id, then 200 or 500 by its outcome |
| `ChatWidget.TrimStart` | frontend/src/App.jsx:52 | the result is a suffix of the input, only whitespace was dropped, and it does not start with whitespace |
| `ChatWidget.TrimEnd` | frontend/src/App.jsx:52 | the result is a prefix of the input, only whitespace was dropped, and it does not end with whitespace |
| `ChatWidget.Trim` | frontend/src/App.jsx:52-53 | the trimmed text is a slice of the input with only whitespace before and after it; it is empty iff the input is all whitespace, and otherwise neither starts nor ends with whitespace |
| `ChatWidget.AgentAnswer` | frontend/src/App.jsx:66-79 | exactly one agent entry: `text = reply`, `videos = videos or []` for a parsed response, otherwise a text starting `Error: ` and no videos |
| `ChatWidget.ErrorBodyShownAsReply` | frontend/src/App.jsx:66-72 | an `{error}` body is shown as an agent entry with undefined text and `[]` videos |
| `ChatWidget.LikedList` | frontend/src/App.jsx:27-31 | the liked list is `data.liked` or `[]`; a failed fetch or null data throws |
| `ChatWidget.CollectLiked` | frontend/src/App.jsx:30-33 | the built map holds exactly the fetched video ids, each mapped to true; it throws iff the list is not an array or holds a null/undefined entry |
| `ChatWidget.LikeEndpoint` | frontend/src/App.jsx:90 | `/api/unlike` iff `isLiked` is truthy, otherwise `/api/like` |
| `ChatWidget.Toggled` | frontend/src/App.jsx:99-102 | the video's key becomes `!isLiked`; every other key and value is unchanged |
| `ChatWidget.ToggleFlipsShownState` | frontend/src/App.jsx:191-220 | toggling from the shown state flips it, and toggling twice restores it |
| `ChatWidget.Widget.constructor` | frontend/src/App.jsx:8-19 | the transcript starts as the single agent greeting; input empty, not loading, no likes |
| `ChatWidget.Widget.SetInput` | frontend/src/App.jsx:146 | the input becomes the typed text |
| `ChatWidget.Widget.Send` | frontend/src/App.jsx:51-57 | blank input changes no state and sends nothing; otherwise one user entry with the trimmed text is appended, the input cleared, loading set, and the trimmed text sent |
| `ChatWidget.Widget.Receive` | frontend/src/App.jsx:59-82 | exactly one agent entry is appended and loading is false afterwards |
| `ChatWidget.Widget.HandleSend` | frontend/src/App.jsx:51-83 | blank input changes nothing; otherwise two entries are appended (user, then agent answer for the trimmed request), the input is cleared and loading ends false |
| `ChatWidget.Widget.FetchLiked` | frontend/src/App.jsx:24-46 | on success the liked map is replaced by exactly the fetched ids mapped to true and one agent entry is appended; on any throw only the alert is raised |
| `ChatWidget.Widget.ToggleLike` | frontend/src/App.jsx:88-106 | posts to the route `isLiked` picks; once it resolves only the video's key changes, to `!isLiked`; on failure only the alert is raised |

## Left out

- Express routing, CORS, the health check, `dotenv` and `app.listen` (`server/server.js:15-33`, `258-260`) are process setup. The environment variables the core reads are configuration fields.
- The axios transport and the API key header. `complete` stands for one chat-completions request together with reading `choices[0].message`; it may throw.
- `callTool` and `getToolDefinitionsForOpenAI` (from `server/mcp/mcpServer`) and `searchVideos` (from `server/services/youtubeClient`) are parameters. Those files are not part of this model, so unknown-tool and degraded-result behaviour is not modelled.
- `JSON.parse` and `JSON.stringify` are parameters. `stringify` is total, so the case where `JSON.stringify(undefined)` gives `undefined` is not distinguished.
- The googleapis `videos.rate` and `playlistItems.list` calls are a foreign library and the network. They are parameters. `getYouTubeClient` (`server/server.js:132-147`) is not modelled on its own.
- Playlists.LikedVideos, Playlists.WatchHistory: a throw in `getYouTubeClient` is folded into a failing `list`. Both give the same 500, so the responses are unaffected.
- Playlists.Like, Playlists.Unlike: a throw in `getYouTubeClient` (`server/server.js:158`, `181`) is folded into `rate` returning false. The 500 response is the same, but `rated` then records a `videos.rate` call that the code never makes.
- `getRefreshToken.js` is an interactive OAuth bootstrap over readline and the network.
- JSX rendering, `handleKeyDown`, `toLocaleDateString` and the `fetch` transport (`frontend/src/App.jsx:108-231`) are UI and locale-dependent. An `alert` is modelled as the returned alert text.
- `async`/`await` interleaving is not modelled: each handler is a sequential step. `handleSend` is split at its `await` into `Send` and `Receive`, and `HandleSend` composes them.
- Numbers are integers: NaN, fractions and `-0` are not modelled. Property reads on strings and arrays (`length`, indices) give `undefined` in the model.
- A tool call without a `function` field, or with non-string `arguments`, is not modelled. `ToolCall` always carries a name and arguments as text.
- `console.error` logging is not modelled.
- YoutubeTool.YoutubeSearch: the message thrown for null or undefined arguments follows the V8 engine's `TypeError` wording. The model promises only that this case throws with no search.
