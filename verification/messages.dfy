/** The conversation history of aisle/_messages.py: the list of role/content
    entries and the session, user and AI counters. Each operation is first a
    function on a conversation value and then a method of the `Messages`
    object, which changes its fields in place. The chat request is sent to a
    server given as a function from request to reply. */
module Chat {
  import opened PyStrings
  import opened PyValues
  import opened General
  import opened Backends

  /** One entry of the history: its `role`, its `content` and, for a user
      turn sent with an image, the `images` list (None: no such key). */
  datatype ChatEntry = ChatEntry(role: string, content: string, images: Option<seq<string>>)

  /** The history and the three counters. */
  datatype Conversation = Conversation(history: seq<ChatEntry>, session: int, users: int, ais: int)

  /** The class-level starting values. */
  const Initial: Conversation := Conversation([], 1, 0, 0)

  /** Since the last clear, every entry is one user turn or one AI turn. */
  predicate Consistent(c: Conversation) {
    c.session >= 1 && c.users >= 0 && c.ais >= 0 && |c.history| == c.users + c.ais
  }

  /** The `(success, message)` pair of an operation and the conversation after it. */
  datatype Step = Step(ok: bool, note: string, after: Conversation)

  const LoadedNote: string := "User content has been loaded."

  /** The entry `assemble(content, image_path)` builds: a user turn holding
      the content, with an `images` list of exactly the encoded image when an
      image path is given; the image encoding error otherwise. */
  function UserEntry(content: string, imagePath: PyValue, fs: string -> FileState): (r: Result<ChatEntry>)
    ensures r.Ok? ==> r.value.role == "user" && r.value.content == content
    ensures !Truthy(imagePath) ==> r == Ok(ChatEntry("user", content, None))
    ensures Truthy(imagePath) ==> (r.Ok? <==> Image2Base64(imagePath, fs).Ok?)
    ensures Truthy(imagePath) && r.Ok? ==> r.value.images == Some([Image2Base64(imagePath, fs).value])
    ensures Truthy(imagePath) && r.Err? ==> r.message == Image2Base64(imagePath, fs).message
  {
    var entry := ChatEntry("user", content, None);
    if !Truthy(imagePath) then Ok(entry)
    else
      match Image2Base64(imagePath, fs)
      case Ok(code) => Ok(entry.(images := Some([code])))
      case Err(e) => Err(e)
  }

  /** `assemble`: on success exactly one user entry is appended and the user
      counter grows by one; on an image error nothing changes. */
  function Assembled(c: Conversation, content: string, imagePath: PyValue, fs: string -> FileState): (s: Step)
    ensures s.ok <==> UserEntry(content, imagePath, fs).Ok?
    ensures s.ok ==> s.note == LoadedNote
    ensures s.ok ==> s.after == c.(history := c.history + [UserEntry(content, imagePath, fs).value], users := c.users + 1)
    ensures !s.ok ==> s.after == c && s.note == UserEntry(content, imagePath, fs).message
    ensures Consistent(c) ==> Consistent(s.after)
  {
    match UserEntry(content, imagePath, fs)
    case Err(e) => Step(false, e, c)
    case Ok(entry) => Step(true, LoadedNote, c.(history := c.history + [entry], users := c.users + 1))
  }

  /** `clear`: an empty history, the next session, both turn counters at zero. */
  function Cleared(c: Conversation): (r: Conversation)
    ensures r.history == [] && r.session == c.session + 1 && r.users == 0 && r.ais == 0
    ensures Consistent(c) ==> Consistent(r)
  {
    Conversation([], c.session + 1, 0, 0)
  }

  /** The `options` of a chat request. */
  datatype Options = Options(temperature: Float, seed: Option<PyValue>)

  /** The JSON body posted to `endpoint`. */
  datatype ChatRequest = ChatRequest(endpoint: string, model: string, messages: seq<ChatEntry>, stream: bool, options: Options)

  /** The request `launch` posts: the model, the whole history, the stream
      flag and the temperature; the seed is sent if and only if the
      conversation is reproducible. */
  function Payload(s: Settings, history: seq<ChatEntry>): (q: ChatRequest)
    ensures q.endpoint == Url + "api/chat"
    ensures q.model == s.model && q.messages == history && q.stream == Stream
    ensures q.options.temperature == s.temperature
    ensures q.options.seed.Some? <==> s.reproducible
    ensures q.options.seed.Some? ==> q.options.seed.value == s.seed
  {
    var options := Options(s.temperature, if s.reproducible then Some(s.seed) else None);
    ChatRequest(Url + "api/chat", s.model, history, Stream, options)
  }

  /** What came back from the chat request: a request error (connection,
      HTTP status or an unreadable body), or a JSON object that may or may
      not hold a `message` field. */
  datatype ChatReply = RequestError(detail: string) | Answer(message: Option<ChatEntry>)

  const ReceivedNote: string := "AI response has been received."
  const NoMessageNote: string := "The 'message' field was not found in the response."

  function RequestErrorNote(detail: string): string {
    "An error occurred while requesting the backend: " + detail
  }

  /** `launch` given the reply: the reply's message is appended and the AI
      counter grows by one exactly when the reply holds a `message`; a
      missing field or a request error leaves everything as it was. */
  function Launched(c: Conversation, reply: ChatReply): (s: Step)
    ensures s.ok <==> reply.Answer? && reply.message.Some?
    ensures s.ok ==> s.note == ReceivedNote
    ensures s.ok ==> s.after == c.(history := c.history + [reply.message.value], ais := c.ais + 1)
    ensures !s.ok ==> s.after == c
    ensures reply.RequestError? ==> s.note == RequestErrorNote(reply.detail)
    ensures reply == Answer(None) ==> s.note == NoMessageNote
    ensures Consistent(c) ==> Consistent(s.after)
  {
    match reply
    case RequestError(e) => Step(false, RequestErrorNote(e), c)
    case Answer(None) => Step(false, NoMessageNote, c)
    case Answer(Some(m)) => Step(true, ReceivedNote, c.(history := c.history + [m], ais := c.ais + 1))
  }

  /** What `show` puts on screen: nothing, the raw content, or the styled
      block with its date and session header line. */
  datatype Display = NoDisplay | RawText(text: string) | Styled(header: string, content: string)

  /** The session label `<session>.<ai turns>`. */
  function SessionLabel(session: int, ais: int): string {
    IntToString(session) + "." + IntToString(ais)
  }

  /** The header line printed above a styled reply. */
  function StyledHeader(now: Instant, session: int, ais: int): string {
    " " + Ansi("97", " Date:[" + GenerateTimestamp(now) + "]  Session:[" + SessionLabel(session, ais) + "]")
  }

  /** `show(raw)` at clock reading `now`: nothing on an empty history;
      otherwise the content of the last entry, raw or styled under the label
      `session.ai`. */
  function Shown(c: Conversation, raw: bool, now: Instant): (d: Display)
    ensures c.history == [] <==> d == NoDisplay
    ensures c.history != [] && raw ==> d == RawText(c.history[|c.history| - 1].content)
    ensures c.history != [] && !raw ==>
      d == Styled(StyledHeader(now, c.session, c.ais), c.history[|c.history| - 1].content)
  {
    if c.history == [] then NoDisplay
    else
      var content := c.history[|c.history| - 1].content;
      if raw then RawText(content) else Styled(StyledHeader(now, c.session, c.ais), content)
  }

  /** Distinct counter pairs get distinct session labels. */
  lemma {:induction false} SessionLabelsDistinct(s1: nat, a1: nat, s2: nat, a2: nat)
    requires SessionLabel(s1, a1) == SessionLabel(s2, a2)
    ensures s1 == s2 && a1 == a2
  {
    var x1, y1 := NatToString(s1), NatToString(a1);
    var x2, y2 := NatToString(s2), NatToString(a2);
    var l := SessionLabel(s1, a1);
    assert l == x1 + "." + y1;
    assert l == x2 + "." + y2;
    assert l[|x1|] == '.' && l[|x2|] == '.';
    assert |x1| == |x2|;
    assert x1 == l[..|x1|] == x2;
    assert y1 == l[|x1| + 1..] == y2;
    NatRoundTrip(s1);
    NatRoundTrip(s2);
    NatRoundTrip(a1);
    NatRoundTrip(a2);
  }

  /** The conversation object. */
  class Messages {
    var history: seq<ChatEntry>
    var sessionCounter: int
    var userCounter: int
    var aiCounter: int

    /** The conversation the object currently holds. */
    function State(): Conversation
      reads this
    {
      Conversation(history, sessionCounter, userCounter, aiCounter)
    }

    /** The history length is the user count plus the AI count. */
    predicate Valid()
      reads this
    {
      Consistent(State())
    }

    constructor ()
      ensures State() == Initial && Valid()
    {
      history := [];
      sessionCounter := 1;
      userCounter := 0;
      aiCounter := 0;
    }

    method Assemble(content: string, imagePath: PyValue, fs: string -> FileState) returns (ok: bool, note: string)
      requires Valid()
      modifies this
      ensures Valid()
      ensures Step(ok, note, State()) == Assembled(old(State()), content, imagePath, fs)
    {
      var entry := ChatEntry("user", content, None);
      if Truthy(imagePath) {
        var encoded := Image2Base64(imagePath, fs);
        if encoded.Ok? {
          entry := entry.(images := Some([encoded.value]));
        } else {
          return false, encoded.message;
        }
      }
      history := history + [entry];
      userCounter := userCounter + 1;
      return true, "User content has been loaded.";
    }

    method Clear()
      requires Valid()
      modifies this
      ensures Valid()
      ensures State() == Cleared(old(State()))
    {
      history := [];
      sessionCounter := sessionCounter + 1;
      userCounter := 0;
      aiCounter := 0;
    }

    /** `launch(backend)`: posts the request built from the backend's settings
      and the history to `server` and records the reply. */
    method Launch(backend: Backend, server: ChatRequest -> ChatReply) returns (ok: bool, note: string)
      requires Valid()
      modifies this
      ensures Valid()
      ensures Step(ok, note, State()) == Launched(old(State()), server(Payload(backend.Current(), old(history))))
    {
      var data := ChatRequest(backend.url + "api/chat", backend.model, history, backend.stream,
                              Options(backend.temperature, None));
      if backend.reproducible {
        data := data.(options := data.options.(seed := Some(backend.seed)));
      }
      var reply := server(data);
      match reply
      case RequestError(e) =>
        return false, "An error occurred while requesting the backend: " + e;
      case Answer(message) =>
        if message.Some? {
          history := history + [message.value];
          aiCounter := aiCounter + 1;
          return true, "AI response has been received.";
        } else {
          return false, "The 'message' field was not found in the response.";
        }
    }

    /** `show(raw)` at clock reading `now`. */
    method Show(raw: bool, now: Instant) returns (d: Display)
      ensures d == Shown(State(), raw, now)
    {
      if history == [] {
        return NoDisplay;
      }
      var content := history[|history| - 1].content;
      if raw {
        d := RawText(content);
      } else {
        var sessionTag := IntToString(sessionCounter) + "." + IntToString(aiCounter);
        var header := " " + Ansi("97", " Date:[" + GenerateTimestamp(now) + "]  Session:[" + sessionTag + "]");
        d := Styled(header, content);
      }
    }
  }
}
