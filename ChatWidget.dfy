/** The chat widget's state (`App` in the frontend) and the handlers that
    update it: sending a message, showing the liked videos, and toggling a
    like. Rendering is not modelled. Each network round trip is a parameter:
    `chat` is the `/api/chat` fetch followed by `response.json()`, `liked` the
    outcome of the `/api/liked` fetch and `response.json()`, and `post` tells
    whether the like/unlike fetch resolved. */
module ChatWidget {
  import opened JsValue

  const Greeting := "Hi! I am your YouTube MCP agent. Ask me for video recommendations or learning paths on any topic."
  const LikedText := "Here are your liked videos \U{2764}\U{FE0F}"
  const FetchLikedAlert := "Failed to fetch liked videos"
  const ToggleAlert := "Failed to update like status."
  const LikeRoute := "/api/like"
  const UnlikeRoute := "/api/unlike"

  datatype Sender = User | Agent

  /** A transcript entry `{ from, text, videos? }`. */
  datatype Message = Message(from: Sender, text: Value, videos: Option<Value>)

  /** The characters `String.prototype.trim` removes: ECMAScript WhiteSpace
      (tab, vertical tab, form feed, the byte order mark and every Unicode
      space separator) and LineTerminator. */
  predicate IsWhitespace(c: char) {
    || c in {'\t', '\U{000B}', '\U{000C}', ' ', '\U{00A0}', '\U{FEFF}'}
    || c in {'\U{1680}', '\U{202F}', '\U{205F}', '\U{3000}'}
    || ('\U{2000}' <= c <= '\U{200A}')
    || c in {'\n', '\r', '\U{2028}', '\U{2029}'}
  }

  function TrimStart(s: string): (r: string)
    ensures |r| <= |s| && r == s[|s| - |r|..]
    ensures forall k | 0 <= k < |s| - |r| :: IsWhitespace(s[k])
    ensures r == [] || !IsWhitespace(r[0])
    decreases |s|
  {
    if s != [] && IsWhitespace(s[0]) then TrimStart(s[1..]) else s
  }

  function TrimEnd(s: string): (r: string)
    ensures |r| <= |s| && r == s[..|r|]
    ensures forall k | |r| <= k < |s| :: IsWhitespace(s[k])
    ensures r == [] || !IsWhitespace(r[|r| - 1])
    decreases |s|
  {
    if s != [] && IsWhitespace(s[|s| - 1]) then TrimEnd(s[..|s| - 1]) else s
  }

  /** `r` is the slice of `s` starting at `start`, with only whitespace
      before and after it. */
  predicate KeptSlice(s: string, r: string, start: int) {
    && 0 <= start <= |s| - |r|
    && r == s[start..start + |r|]
    && (forall k | 0 <= k < start :: IsWhitespace(s[k]))
    && (forall k | start + |r| <= k < |s| :: IsWhitespace(s[k]))
  }

  /** `input.trim()`: the input with its leading and trailing whitespace
      removed; empty exactly when the input is blank. */
  function Trim(s: string): (r: string)
    ensures r == [] <==> forall k | 0 <= k < |s| :: IsWhitespace(s[k])
    ensures r != [] ==> !IsWhitespace(r[0]) && !IsWhitespace(r[|r| - 1])
    ensures exists start :: KeptSlice(s, r, start)
  {
    var t := TrimStart(s);
    var r := TrimEnd(t);
    TrimSlices(s, t, r, |s| - |t|);
    r
  }

  /** How the two halves of `Trim` compose: the kept part is a slice of the
      input with only whitespace around it. */
  lemma TrimSlices(s: string, t: string, r: string, start: nat)
    requires start <= |s| && t == s[start..]
    requires forall k | 0 <= k < start :: IsWhitespace(s[k])
    requires t == [] || !IsWhitespace(t[0])
    requires |r| <= |t| && r == t[..|r|]
    requires forall k | |r| <= k < |t| :: IsWhitespace(t[k])
    requires r == [] || !IsWhitespace(r[|r| - 1])
    ensures KeptSlice(s, r, start)
    ensures r != [] ==> !IsWhitespace(r[0])
    ensures r == [] <==> forall k | 0 <= k < |s| :: IsWhitespace(s[k])
  {
    forall k | start + |r| <= k < |s| ensures IsWhitespace(s[k]) {
      assert s[k] == t[k - start];
    }
    if r == [] {
      assert t == [];
    } else {
      assert r[0] == t[0] == s[start];
    }
  }

  function GreetingMessage(): Message {
    Message(Agent, Str(Greeting), None)
  }

  function UserMessage(text: string): Message {
    Message(User, Str(text), None)
  }

  /** The agent's entry for the outcome of a chat request: the reply with
      `videos || []` when the response parsed to an object, otherwise an
      `Error: ...` line without videos (reading `reply` of a null response
      throws too). */
  function AgentAnswer(outcome: Result<Value>): (m: Message)
    ensures m.from == Agent
    ensures m.videos.Some? <==> outcome.Ok? && !Nullish(outcome.value)
    ensures m.videos.Some? ==>
              m.text == Get(outcome.value, "reply") && m.videos.value == Or(Get(outcome.value, "videos"), Arr([]))
    ensures m.videos.None? ==> m.text.Str? && |m.text.s| >= 7 && m.text.s[..7] == "Error: "
    ensures outcome.Fail? ==> m.text == Str("Error: " + outcome.message)
  {
    var reply := match outcome
      case Fail(e) => Fail(e)
      case Ok(data) => Member(data, "reply");
    match reply
    case Fail(e) => Message(Agent, Str("Error: " + e), None)
    case Ok(text) => Message(Agent, text, Some(Or(Get(outcome.value, "videos"), Arr([]))))
  }

  /** The widget does not look at the HTTP status: a 400 or 500 body
      `{ error }` parses fine and is shown as an agent entry with no text and
      no videos, not as an `Error: ...` line. */
  lemma ErrorBodyShownAsReply(error: string)
    ensures AgentAnswer(Ok(Obj(map["error" := Str(error)]))) == Message(Agent, Undefined, Some(Arr([])))
  {
  }

  /** `data.liked || []` of the `/api/liked` response. */
  function LikedList(response: Result<Value>): (r: Result<Value>)
    ensures response.Ok? && !Nullish(response.value) ==> r == Ok(Or(Get(response.value, "liked"), Arr([])))
    ensures response.Fail? || Nullish(response.value) ==> r.Fail?
  {
    match response
    case Fail(e) => Fail(e)
    case Ok(data) =>
      match Member(data, "liked")
      case Fail(e) => Fail(e)
      case Ok(liked) => Ok(Or(liked, Arr([])))
  }

  /** The key `likedMap[v.videoId]` writes for one fetched video. */
  function LikedKey(v: Value): string
    requires !Nullish(v)
  {
    PropertyKey(Get(v, "videoId"))
  }

  /** `list.forEach((v) => { likedMap[v.videoId] = true; })` starting from
      `{}`: the map holds exactly the fetched ids, each mapped to true. It
      throws when `list` is not an array or one of its entries is null or
      undefined. */
  method CollectLiked(list: Value) returns (likedMap: Result<map<string, bool>>)
    ensures likedMap.Ok? <==> list.Arr? && forall i | 0 <= i < |list.elements| :: !Nullish(list.elements[i])
    ensures likedMap.Ok? ==>
              forall k :: k in likedMap.value <==>
                exists i | 0 <= i < |list.elements| :: !Nullish(list.elements[i]) && LikedKey(list.elements[i]) == k
    ensures likedMap.Ok? ==> forall k | k in likedMap.value :: likedMap.value[k]
  {
    if !list.Arr? {
      return Fail("forEach is not a function");
    }
    var xs := list.elements;
    var m: map<string, bool> := map[];
    var i := 0;
    while i < |xs|
      invariant 0 <= i <= |xs|
      invariant forall j | 0 <= j < i :: !Nullish(xs[j])
      invariant forall k :: k in m <==> exists j | 0 <= j < i :: !Nullish(xs[j]) && LikedKey(xs[j]) == k
      invariant forall k | k in m :: m[k]
    {
      var v := xs[i];
      var id := Member(v, "videoId");
      if id.Fail? {
        return Fail(id.message);
      }
      m := m[PropertyKey(id.value) := true];
      i := i + 1;
    }
    return Ok(m);
  }

  /** `isLiked ? "/api/unlike" : "/api/like"` */
  function LikeEndpoint(isLiked: Value): (endpoint: string)
    ensures endpoint == UnlikeRoute <==> Truthy(isLiked)
    ensures endpoint == LikeRoute <==> !Truthy(isLiked)
  {
    if Truthy(isLiked) then UnlikeRoute else LikeRoute
  }

  /** `({ ...prev, [videoId]: !isLiked })`: only the video's key changes. */
  function Toggled(likedVideos: map<string, bool>, videoId: Value, isLiked: Value): (r: map<string, bool>)
    ensures PropertyKey(videoId) in r && r[PropertyKey(videoId)] == !Truthy(isLiked)
    ensures r.Keys == likedVideos.Keys + {PropertyKey(videoId)}
    ensures forall k | k in likedVideos && k != PropertyKey(videoId) :: r[k] == likedVideos[k]
  {
    likedVideos[PropertyKey(videoId) := !Truthy(isLiked)]
  }

  /** `likedVideos[v.videoId]` as the video list reads it. */
  function LikedState(likedVideos: map<string, bool>, videoId: Value): Value {
    var key := PropertyKey(videoId);
    if key in likedVideos then Bool(likedVideos[key]) else Undefined
  }

  /** Toggling from what the video list shows flips what it shows, and
      toggling twice shows the original state again. */
  lemma ToggleFlipsShownState(likedVideos: map<string, bool>, videoId: Value)
    ensures var once := Toggled(likedVideos, videoId, LikedState(likedVideos, videoId));
            var twice := Toggled(once, videoId, LikedState(once, videoId));
            && Truthy(LikedState(once, videoId)) == !Truthy(LikedState(likedVideos, videoId))
            && Truthy(LikedState(twice, videoId)) == Truthy(LikedState(likedVideos, videoId))
  {
  }

  class Widget {
    var messages: seq<Message>
    var input: string
    var loading: bool
    var likedVideos: map<string, bool>

    constructor ()
      ensures messages == [GreetingMessage()]
      ensures input == "" && !loading && likedVideos == map[]
    {
      messages := [GreetingMessage()];
      input := "";
      loading := false;
      likedVideos := map[];
    }

    /** The text area's `onChange`. */
    method SetInput(text: string)
      modifies this`input
      ensures input == text
    {
      input := text;
    }

    /** `handleSend` up to the request: a blank input changes nothing;
        otherwise the trimmed text is appended as the user's entry, the input
        is cleared, `loading` is set, and the trimmed text is what is sent. */
    method Send() returns (sent: Option<string>)
      modifies this
      ensures Trim(old(input)) == "" ==>
                && sent == None
                && messages == old(messages) && input == old(input) && loading == old(loading)
      ensures Trim(old(input)) != "" ==>
                && sent == Some(Trim(old(input)))
                && messages == old(messages) + [UserMessage(Trim(old(input)))]
                && input == "" && loading
      ensures likedVideos == old(likedVideos)
    {
      var trimmed := Trim(input);
      if trimmed == "" {
        return None;
      }
      messages := messages + [UserMessage(trimmed)];
      input := "";
      loading := true;
      return Some(trimmed);
    }

    /** `handleSend` after the request: exactly one agent entry is appended
        (the reply, or the error) and `loading` is cleared (`finally`). */
    method Receive(outcome: Result<Value>)
      modifies this
      ensures messages == old(messages) + [AgentAnswer(outcome)]
      ensures !loading
      ensures input == old(input) && likedVideos == old(likedVideos)
    {
      var answer := AgentAnswer(outcome);
      messages := messages + [answer];
      loading := false;
    }

    /** The whole `handleSend`, with `chat` standing for the request. */
    method HandleSend(chat: string -> Result<Value>) returns (sent: Option<string>)
      modifies this
      ensures Trim(old(input)) == "" ==>
                && sent == None
                && messages == old(messages) && input == old(input) && loading == old(loading)
      ensures Trim(old(input)) != "" ==>
                && sent == Some(Trim(old(input)))
                && messages == old(messages) + [UserMessage(Trim(old(input))), AgentAnswer(chat(Trim(old(input))))]
                && input == "" && !loading
      ensures likedVideos == old(likedVideos)
    {
      sent := Send();
      if sent.Some? {
        Receive(chat(sent.value));
      }
    }

    /** `fetchLiked`: on success the liked map is replaced (not merged) by
        one holding exactly the fetched ids, each true, and one agent entry
        listing the videos is appended; any throw only raises the alert. */
    method FetchLiked(liked: Result<Value>) returns (alert: Option<string>)
      modifies this
      ensures alert.None? <==>
                && LikedList(liked).Ok?
                && LikedList(liked).value.Arr?
                && forall i | 0 <= i < |LikedList(liked).value.elements| :: !Nullish(LikedList(liked).value.elements[i])
      ensures alert.Some? ==>
                && alert == Some(FetchLikedAlert)
                && messages == old(messages) && likedVideos == old(likedVideos)
      ensures alert.None? ==>
                var list := LikedList(liked).value;
                && (forall k :: k in likedVideos <==>
                      exists i | 0 <= i < |list.elements| :: !Nullish(list.elements[i]) && LikedKey(list.elements[i]) == k)
                && (forall k | k in likedVideos :: likedVideos[k])
                && messages == old(messages) + [Message(Agent, Str(LikedText), Some(list))]
      ensures input == old(input) && loading == old(loading)
    {
      var list := LikedList(liked);
      if list.Fail? {
        return Some(FetchLikedAlert);
      }
      var likedMap := CollectLiked(list.value);
      if likedMap.Fail? {
        return Some(FetchLikedAlert);
      }
      likedVideos := likedMap.value;
      messages := messages + [Message(Agent, Str(LikedText), Some(list.value))];
      return None;
    }

    /** `toggleLike`: posts to the route `isLiked` selects; once that
        resolves only the video's key changes, to `!isLiked`; a failed fetch
        only raises the alert. */
    method ToggleLike(videoId: Value, isLiked: Value, post: (string, Value) -> bool) returns (endpoint: string, alert: Option<string>)
      modifies this`likedVideos
      ensures endpoint == LikeEndpoint(isLiked)
      ensures post(endpoint, videoId) ==> alert == None && likedVideos == Toggled(old(likedVideos), videoId, isLiked)
      ensures !post(endpoint, videoId) ==> alert == Some(ToggleAlert) && likedVideos == old(likedVideos)
    {
      endpoint := LikeEndpoint(isLiked);
      if !post(endpoint, videoId) {
        return endpoint, Some(ToggleAlert);
      }
      likedVideos := Toggled(likedVideos, videoId, isLiked);
      return endpoint, None;
    }
  }
}
