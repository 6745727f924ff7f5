/** The chat widget's controller (`ChatUI` in src/index.ts) as pure
    functions: option defaulting, the state a conversation is in, the view
    rendered from that state, and the submit cycle that appends the user's
    turn, posts the history and settles on the endpoint's reply.  The DOM is
    replaced by a list of described items, `marked.parse` by the symbolic
    content `Markdown(source)`, and the network by the `Exchange` the request
    settles with. */
module ChatUI {
  import opened Wrappers
  import opened JsText
  import FetchJson

  // ----- messages and options (src/index.ts:4-17, 49-56) -----

  datatype Role = System | User

  /** One turn of the conversation, as kept in `messages` and posted. */
  datatype Message = Message(role: Role, message: string)

  /** The optional constructor options; a missing option is `None`. */
  datatype Options = Options(
    apiUrl: string,
    placeholder: Option<string>,
    followUpPlaceholder: Option<string>,
    systemName: Option<string>,
    userName: Option<string>)

  /** The options after defaulting, as the widget keeps them. */
  datatype Config = Config(
    apiUrl: string,
    placeholder: string,
    followUpPlaceholder: string,
    systemName: string,
    userName: string)

  const DefaultPlaceholder := "Type a message..."
  const DefaultFollowUpPlaceholder := "Type a follow up..."
  const DefaultSystemName := "System"
  const DefaultUserName := "You"

  /** The only error text the widget ever shows. */
  const FailureMessage := "Failed to send message. Please try again."

  /** The text of the typing indicator. */
  const TypingMarker := "..."

  /** The option is present and truthy: JavaScript's `||` passes over a
      missing option and over the empty string alike. */
  predicate Given(v: Option<string>) {
    v.Some? && v.value != ""
  }

  /** JavaScript's `v || fallback` on an optional string. */
  function Or(v: Option<string>, fallback: string): (r: string)
    ensures Given(v) ==> r == v.value
    ensures !Given(v) ==> r == fallback
    ensures r != "" <==> Given(v) || fallback != ""
  {
    if Given(v) then v.value else fallback
  }

  /** The constructor's defaulting of the options. */
  function Configure(o: Options): (c: Config)
    ensures c.apiUrl == o.apiUrl
    ensures c.placeholder == (if Given(o.placeholder) then o.placeholder.value else DefaultPlaceholder)
    ensures Given(o.followUpPlaceholder) ==> c.followUpPlaceholder == o.followUpPlaceholder.value
    ensures !Given(o.followUpPlaceholder) && Given(o.placeholder) ==> c.followUpPlaceholder == c.placeholder
    ensures !Given(o.followUpPlaceholder) && !Given(o.placeholder) ==> c.followUpPlaceholder == DefaultFollowUpPlaceholder
    ensures c.systemName == (if Given(o.systemName) then o.systemName.value else DefaultSystemName)
    ensures c.userName == (if Given(o.userName) then o.userName.value else DefaultUserName)
    ensures c.placeholder != "" && c.followUpPlaceholder != "" && c.systemName != "" && c.userName != ""
  {
    Config(
      o.apiUrl,
      Or(o.placeholder, DefaultPlaceholder),
      Or(o.followUpPlaceholder, Or(o.placeholder, DefaultFollowUpPlaceholder)),
      Or(o.systemName, DefaultSystemName),
      Or(o.userName, DefaultUserName))
  }

  // ----- conversation state (src/index.ts:44-47) -----

  /** The widget's mutable fields: the history, the typing flag and the
      error text (`null` is `None`). */
  datatype State = State(messages: seq<Message>, isTyping: bool, error: Option<string>)

  /** The state a freshly constructed widget starts in. */
  const Initial := State([], false, None)

  // ----- rendering (src/index.ts:81-134) -----

  /** A message's content as rendered: SYSTEM text goes through the markdown
      renderer, USER text is set as literal text. */
  datatype Content = Markdown(source: string) | Literal(text: string)

  /** One element appended to the message list. */
  datatype Item =
    | Turn(author: string, content: Content)
    | TypingIndicator(text: string)
    | ErrorNotice(text: string)

  /** What `renderMessages` produces: the message list, whether the container
      is in its first-message mode, and the input's placeholder. */
  datatype View = View(items: seq<Item>, firstMessage: bool, placeholder: string)

  /** The author label shown for a role. */
  function Author(c: Config, role: Role): string {
    match role
    case System => c.systemName
    case User => c.userName
  }

  /** The text carried by a rendered content, whichever way it is rendered. */
  function SourceText(content: Content): string {
    match content
    case Markdown(t) => t
    case Literal(t) => t
  }

  /** `it` is how message `m` is drawn: labelled with its role's name, and
      marked-up exactly when the message is the system's. */
  predicate Depicts(c: Config, m: Message, it: Item) {
    && it.Turn?
    && it.author == Author(c, m.role)
    && (it.content.Markdown? <==> m.role == System)
    && SourceText(it.content) == m.message
  }

  /** The item drawn for one message (src/index.ts:89-109). */
  function TurnItem(c: Config, m: Message): (it: Item)
    ensures Depicts(c, m, it)
  {
    Turn(Author(c, m.role), if m.role == System then Markdown(m.message) else Literal(m.message))
  }

  /** The items drawn for the history, one per message, in order
      (the loop of src/index.ts:88-110). */
  function TurnItems(c: Config, ms: seq<Message>): (items: seq<Item>)
    ensures |items| == |ms|
    ensures forall i :: 0 <= i < |ms| ==> Depicts(c, ms[i], items[i])
  {
    if ms == [] then []
    else TurnItems(c, ms[..|ms| - 1]) + [TurnItem(c, ms[|ms| - 1])]
  }

  /** `if (this.error)`: an error is shown when it is set and non-empty. */
  predicate ShowsError(s: State) {
    Given(s.error)
  }

  /** `renderMessages`: the history, then a typing indicator when a reply is
      awaited, then the error when one is set; the first-message mode and
      the placeholder follow from whether the history is empty. */
  function Render(c: Config, s: State): (v: View)
    ensures |v.items| == |s.messages| + (if s.isTyping then 1 else 0) + (if ShowsError(s) then 1 else 0)
    ensures forall i :: 0 <= i < |s.messages| ==> Depicts(c, s.messages[i], v.items[i])
    ensures s.isTyping ==> v.items[|s.messages|] == TypingIndicator(TypingMarker)
    ensures ShowsError(s) ==> v.items[|v.items| - 1] == ErrorNotice(s.error.value)
    ensures forall i :: |s.messages| <= i < |v.items| ==> !v.items[i].Turn?
    ensures v.firstMessage <==> s.messages == []
    ensures v.placeholder == (if v.firstMessage then c.placeholder else c.followUpPlaceholder)
  {
    var typing := if s.isTyping then [TypingIndicator(TypingMarker)] else [];
    var error := if ShowsError(s) then [ErrorNotice(s.error.value)] else [];
    var first := |s.messages| == 0;
    View(TurnItems(c, s.messages) + typing + error, first, if first then c.placeholder else c.followUpPlaceholder)
  }

  // ----- the submit cycle (src/index.ts:136-182) -----

  /** `addMessage`: appends one message at the end of the history. */
  function AddMessage(s: State, m: Message): (r: State)
    ensures r.messages == s.messages + [m]
    ensures r.isTyping == s.isTyping && r.error == s.error
  {
    s.(messages := s.messages + [m])
  }

  /** The parsed JSON reply, seen through its `output` property: the string
      it holds, or `None` when there is none. */
  datatype Reply = Reply(output: Option<string>)

  /** How the request settles: `fetch` itself rejects, or a response arrives
      with a status, a content-type header and a body that parses to a reply
      (`None` when it is not valid JSON). */
  datatype Exchange =
    | NetworkError
    | Response(status: int, contentType: Option<string>, body: Option<Reply>)

  /** The text of the SYSTEM turn a cycle appends, or `None` when the cycle
      takes the error path (src/index.ts:161-171). */
  function ReplyText(e: Exchange): (t: Option<string>)
    ensures t.Some? <==>
      && e.Response?
      && e.status != FetchJson.NoContent
      && FetchJson.JsonContentType(e.contentType)
      && FetchJson.IsOkStatus(e.status)
      && e.body.Some? && Given(e.body.value.output)
    ensures t.Some? ==> t == e.body.value.output
  {
    match e
    case NetworkError => None
    case Response(status, contentType, body) =>
      match FetchJson.Classify(status, contentType, body)
      case Ok(reply) => if Given(reply.output) then reply.output else None
      case _ => None
  }

  /** The body posted to the endpoint: `{ messages }`. */
  datatype ChatRequest = ChatRequest(messages: seq<Message>)

  /** `sendMessage` up to the request: the typing flag is raised and the
      user's turn appended (src/index.ts:157-158). */
  function Begin(s: State, text: string): (r: State)
    ensures r.messages == s.messages + [Message(User, text)]
    ensures r.isTyping && r.error == s.error
  {
    AddMessage(s.(isTyping := true), Message(User, text))
  }

  /** The request `sendMessage` issues from state `s` (src/index.ts:161-167). */
  function PostHistory(c: Config, s: State): (q: FetchJson.Request<ChatRequest>)
    ensures q.url == c.apiUrl && q.verb == FetchJson.Post
    ensures q.body == FetchJson.JsonText(ChatRequest(s.messages))
    ensures q.headers == map[FetchJson.ContentTypeKey := FetchJson.JsonMediaType]
  {
    var q := FetchJson.BuildRequest(c.apiUrl, FetchJson.Post, Some(ChatRequest(s.messages)), None);
    assert q.headers.Keys == {FetchJson.ContentTypeKey};
    q
  }

  /** `sendMessage` after the request settles (src/index.ts:169-180): a
      usable reply is appended as a SYSTEM turn, anything else sets the
      error; either way the typing flag drops.  The error is never cleared. */
  function Settle(s: State, e: Exchange): (r: State)
    ensures !r.isTyping
    ensures ReplyText(e).Some? ==> r.messages == s.messages + [Message(System, ReplyText(e).value)] && r.error == s.error
    ensures ReplyText(e).None? ==> r.messages == s.messages && r.error == Some(FailureMessage)
  {
    match ReplyText(e)
    case Some(output) => AddMessage(s.(isTyping := false), Message(System, output))
    case None => s.(isTyping := false, error := Some(FailureMessage))
  }

  /** One request cycle: the state while the reply is awaited, the request
      posted from it, and the state once it settles. */
  datatype Cycle = Cycle(pending: State, request: FetchJson.Request<ChatRequest>, settled: State)

  /** `sendMessage(text)` run to completion against the exchange `e`. */
  function SendMessage(c: Config, s: State, text: string, e: Exchange): (cy: Cycle)
    ensures cy.pending.messages == s.messages + [Message(User, text)]
    ensures cy.pending.isTyping && cy.pending.error == s.error
    ensures cy.request.body == FetchJson.JsonText(ChatRequest(cy.pending.messages))
    ensures cy.request.url == c.apiUrl && cy.request.verb == FetchJson.Post
    ensures cy.request == PostHistory(c, cy.pending)
    ensures !cy.settled.isTyping
    ensures ReplyText(e).Some? ==>
      && cy.settled.messages == s.messages + [Message(User, text), Message(System, ReplyText(e).value)]
      && cy.settled.error == s.error
    ensures ReplyText(e).None? ==>
      && cy.settled.messages == s.messages + [Message(User, text)]
      && cy.settled.error == Some(FailureMessage)
  {
    var pending := Begin(s, text);
    Cycle(pending, PostHistory(c, pending), Settle(pending, e))
  }

  /** What a submit of the input does: the input's value afterwards, and the
      cycle it started, if any. */
  datatype Submission = Submission(input: string, cycle: Option<Cycle>)

  /** `onSubmit` (src/index.ts:143-154): a draft that trims to nothing is
      ignored and left in the input; otherwise the input is cleared and the
      trimmed text is sent. */
  function OnSubmit(c: Config, s: State, draft: string, e: Exchange): (r: Submission)
    ensures r.cycle.None? <==> Blank(draft)
    ensures Blank(draft) ==> r.input == draft
    ensures !Blank(draft) ==> r.input == "" && r.cycle == Some(SendMessage(c, s, Trim(draft), e))
    ensures r.cycle.Some? ==> r.cycle.value.pending.messages[|s.messages|].message != ""
  {
    var text := Trim(draft);
    if text == "" then Submission(draft, None)
    else Submission("", Some(SendMessage(c, s, text, e)))
  }

  /** The state a submission leaves the widget in. */
  function After(s: State, r: Submission): State {
    match r.cycle
    case None => s
    case Some(cy) => cy.settled
  }
}
