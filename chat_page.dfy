/** The chat session of the chat page (client/src/components/chat-page/page.tsx):
    sending a message and dispatching the streamed frames of the answer,
    starting a new chat, and loading a stored conversation.

    The pure functions on `Session` say what each step does; the class
    `ChatApp` performs the steps in place, as the component's state setters
    do, and each of its methods is proved against those functions. */
module ChatPage {
  import opened Js
  import opened Constants
  import opened FrameSplit

  const BotAvatar := "/chat-gpt-icon.png"
  const GreetingText :=
    "Hello, this is Becky, your Real Estate AI Assistant. How can I help you today? "
    + "I can start by creating a new deal, or you can ask me about existing deals or "
    + "what needs to be done for today"
  const ErrorText := "Error: Could not get a response from the server."

  /** The calls the page makes into code that is not modelled: `JSON.parse`
      (None is a SyntaxError), the n-th `uuidv4()` of the session, and
      `URL.createObjectURL`. */
  datatype Env = Env(
    parseJson: string -> Option<Value>,
    uuid: nat -> string,
    objectUrl: File -> string)

  /** The component's state: the messages, the loader flag, the chat title
      and id, and how many uuids have been drawn so far. */
  datatype Session = Session(
    messages: seq<Message>,
    loader: bool,
    chatTitle: Value,
    chatId: string,
    drawn: nat)

  /** One field of the multipart request body. */
  datatype FormField = FileField(file: File) | TextField(name: string, value: string)

  /** What the network does with a request: `fetch` rejects, the response is
      not ok, or the body streams the given decoded chunks, after which the
      reader either finishes or fails. */
  datatype FetchOutcome = Rejected | NotOk | Stream(chunks: seq<string>, readFails: bool)

  /** What `axios.get` of the history gives: a failure, or the response body. */
  datatype HistoryOutcome = HistoryFailed | History(body: Value)

  // -------------------------------------------------------------- start-up

  function Greeting(now: int): Message {
    Message(IntToString(now), Str(GreetingText), false, None, Some([]), Some(BotAvatar))
  }

  function InitialSession(env: Env, now: int): Session {
    Session([Greeting(now)], false, Str(""), env.uuid(0), 1)
  }

  // --------------------------------------------------- sending a message

  /** `files?.map((f) => f.name) || []`. */
  function FileNames(files: Option<seq<File>>): seq<string> {
    match files
    case None => []
    case Some(fs) => seq(|fs|, i requires 0 <= i < |fs| => fs[i].name)
  }

  /** The text sent: the typed text, then the attached file names. */
  function AugmentedText(text: string, names: seq<string>): string {
    text + (if |names| > 0 then "\nUploaded filename: " + Join(names, "\n") else "")
  }

  /** The user's own message, appended before the request goes out. */
  function UserMessage(env: Env, text: string, files: Option<seq<File>>, now: int): Message {
    Message(
      IntToString(now),
      Str(AugmentedText(text, FileNames(files))),
      true,
      match files
      case None => None
      case Some(fs) => Some(seq(|fs|, i requires 0 <= i < |fs| => env.objectUrl(fs[i]))),
      Some(FileNames(files)),
      None)
  }

  /** Append the user's message and turn the loader on. */
  function BeginTurn(env: Env, s: Session, text: string, files: Option<seq<File>>, now: int): Session {
    s.(messages := s.messages + [UserMessage(env, text, files, now)], loader := true)
  }

  /** The multipart body: the files, then the text, the chat id and the
      never-set auth token (FormData turns `undefined` into "undefined"). */
  function RequestBody(s: Session, text: string, files: Option<seq<File>>): seq<FormField> {
    var fs := if files.Some? then files.value else [];
    seq(|fs|, i requires 0 <= i < |fs| => FileField(fs[i]))
    + [TextField("message", AugmentedText(text, FileNames(files))),
       TextField("chatId", s.chatId),
       TextField("auth_token", "undefined")]
  }

  // ----------------------------------------------------------- one frame

  /** A parsed frame whose fields can be read (JSON `null` cannot). */
  predicate Readable(frame: Value) {
    !frame.Undefined? && !frame.Null?
  }

  function Field(frame: Value, key: string): Value
    requires Readable(frame)
  {
    Prop(frame, key).value
  }

  /** `node_name == "end_node" || node_name == "__interrupt__"` (loose). */
  predicate IsTerminal(frame: Value)
    requires Readable(frame)
  {
    LooseEqualsString(Field(frame, "node_name"), "end_node")
    || LooseEqualsString(Field(frame, "node_name"), "__interrupt__")
  }

  predicate IsStreamStatus(status: Value) {
    status == Str("node_stream") || status == Str("custom_stream") || status == Str("interrupted_msg")
  }

  /** The guard of the update branch: strict on status and type, loose `!=`
      on the message. */
  predicate IsUpdateFrame(frame: Value)
    requires Readable(frame)
  {
    IsStreamStatus(Field(frame, "status")) && Field(frame, "type") == Str("update")
    && !LooseEqualsString(Field(frame, "msg"), "")
  }

  /** The guard of the add branch, reached only when the update guard fails. */
  predicate IsAddFrame(frame: Value)
    requires Readable(frame)
  {
    !IsUpdateFrame(frame) && Field(frame, "type") == Str("add")
    && !LooseEqualsString(Field(frame, "msg"), "")
  }

  /** Loader and title: a terminal frame turns the loader off and takes the
      frame's `chat_title` when that is truthy. */
  function TerminalStep(s: Session, frame: Value): Session
    requires Readable(frame)
  {
    if IsTerminal(frame) then
      s.(loader := false,
         chatTitle := if Truthy(Field(frame, "chat_title")) then Field(frame, "chat_title") else s.chatTitle)
    else s
  }

  /** The HTML for a parsed special message: the dashboard or the status
      table by its `template`; None when the template is neither or the
      generator throws. */
  function TemplateHtml(special: Value, mode: string): Option<string>
    requires Readable(special)
  {
    if LooseEqualsString(Field(special, "template"), "html_dashboard") then
      GenerateDashboardMessage(Field(special, "data"), mode)
    else if LooseEqualsString(Field(special, "template"), "status_bar") then
      StatusTable(Field(special, "data"))
    else None
  }

  /** An "@@@"-prefixed message names a template: the dashboard or the status
      table replaces it when the rest parses and the template is known;
      anything that throws on the way keeps the raw message. */
  function ExpandSpecial(env: Env, mode: string, msg: string): Value {
    if !StartsWith(msg, "@@@") then Str(msg)
    else
      match env.parseJson(msg[3..])
      case None => Str(msg)
      case Some(special) =>
        if !Readable(special) then Str(msg)
        else
          match TemplateHtml(special, mode)
          case Some(html) => Str(html)
          case None => Str(msg)
  }

  /** A message from the assistant. */
  function BotMessage(id: string, content: Value, files: Option<seq<File>>): Message {
    Message(id, content, false, None, Some(FileNames(files)), Some(BotAvatar))
  }

  /** The last message with its content replaced. */
  function ReplaceLastContent(messages: seq<Message>, content: Value): seq<Message>
    requires |messages| > 0
  {
    messages[|messages| - 1 := messages[|messages| - 1].(content := content)]
  }

  /** The message branch of one frame; None is the TypeError of calling
      `startsWith` on an "add" message that is not a string. */
  function DispatchStep(env: Env, mode: string, s: Session, frame: Value, files: Option<seq<File>>): Option<Session>
    requires Readable(frame) && |s.messages| > 0
  {
    if IsUpdateFrame(frame) then
      Some(s.(messages := ReplaceLastContent(s.messages, Field(frame, "msg"))))
    else if IsAddFrame(frame) then
      var msg := Field(frame, "msg");
      if !msg.Str? then None
      else
        Some(s.(messages := s.messages + [BotMessage(env.uuid(s.drawn), ExpandSpecial(env, mode, msg.s), files)],
                drawn := s.drawn + 1))
    else Some(s)
  }

  /** One piece of a chunk: parse it, then the loader/title step, then the
      message branch. A piece that fails to parse or cannot be read is
      skipped; a throw in the message branch keeps the loader/title step. */
  function ApplyFrame(env: Env, mode: string, s: Session, piece: string, files: Option<seq<File>>): (r: Session)
    requires |s.messages| > 0
    ensures |r.messages| >= |s.messages|
  {
    match env.parseJson(piece)
    case None => s
    case Some(frame) =>
      if !Readable(frame) then s
      else
        var t := TerminalStep(s, frame);
        match DispatchStep(env, mode, t, frame, files)
        case None => t
        case Some(u) => u
  }

  /** The pieces in order, each on the state the previous one left. */
  function ApplyPieces(env: Env, mode: string, s: Session, pieces: seq<string>, files: Option<seq<File>>): (r: Session)
    requires |s.messages| > 0
    ensures |r.messages| >= |s.messages|
  {
    if |pieces| == 0 then s
    else
      ApplyFrame(env, mode, ApplyPieces(env, mode, s, pieces[..|pieces| - 1], files), pieces[|pieces| - 1], files)
  }

  /** One decoded chunk: split it, then apply its pieces. */
  function ReceiveChunkSpec(env: Env, mode: string, s: Session, chunk: string, files: Option<seq<File>>): (r: Session)
    requires |s.messages| > 0
    ensures |r.messages| >= |s.messages|
  {
    ApplyPieces(env, mode, s, SplitFrames(chunk), files)
  }

  /** The chunks in the order they are read. */
  function ReceiveAll(env: Env, mode: string, s: Session, chunks: seq<string>, files: Option<seq<File>>): (r: Session)
    requires |s.messages| > 0
    ensures |r.messages| >= |s.messages|
  {
    if |chunks| == 0 then s
    else ReceiveChunkSpec(env, mode, ReceiveAll(env, mode, s, chunks[..|chunks| - 1], files), chunks[|chunks| - 1], files)
  }

  // --------------------------------------------------------- error path

  function ErrorMessage(failedAt: int, files: Option<seq<File>>): Message {
    Message(IntToString(failedAt + 1), Str(ErrorText), false, None, Some(FileNames(files)), Some(BotAvatar))
  }

  /** The catch block: one error message; the loader is left as it is. */
  function FailTurn(s: Session, files: Option<seq<File>>, failedAt: int): Session {
    s.(messages := s.messages + [ErrorMessage(failedAt, files)])
  }

  /** A whole `handleSendMessage`. */
  function Turn(env: Env, mode: string, s: Session, text: string, files: Option<seq<File>>,
                sentAt: int, outcome: FetchOutcome, failedAt: int): Session
  {
    var begun := BeginTurn(env, s, text, files, sentAt);
    match outcome
    case Rejected => FailTurn(begun, files, failedAt)
    case NotOk => FailTurn(begun, files, failedAt)
    case Stream(chunks, readFails) =>
      var received := ReceiveAll(env, mode, begun, chunks, files);
      if readFails then FailTurn(received, files, failedAt) else received
  }

  // ------------------------------------------------- new chat and history

  /** The "New chat" button: a fresh id, only the first message kept. */
  function NewChatSpec(env: Env, s: Session): Session
    requires |s.messages| > 0
  {
    s.(chatId := env.uuid(s.drawn), drawn := s.drawn + 1, messages := [s.messages[0]])
  }

  /** A stored message can be shown: it is readable and its content is a
      string (otherwise `msg.content.startsWith` throws). */
  predicate ItemOk(item: Value) {
    match Prop(item, "content")
    case Some(Str(_)) => true
    case _ => false
  }

  /** How many stored messages are shown: those before the first that throws. */
  function FirstFailure(items: seq<Value>): (k: nat)
    ensures k <= |items|
    ensures forall i :: 0 <= i < k ==> ItemOk(items[i])
    ensures k < |items| ==> !ItemOk(items[k])
  {
    if |items| == 0 || !ItemOk(items[0]) then 0 else 1 + FirstFailure(items[1..])
  }

  /** A stored message as shown: a human role is the user's side. */
  function HistoryMessage(env: Env, mode: string, id: string, item: Value): Message
    requires ItemOk(item)
  {
    var human := LooseEqualsString(Prop(item, "role").value, "human");
    Message(id, ExpandSpecial(env, mode, Prop(item, "content").value.s), human, None, Some([]),
            Some(if human then "" else BotAvatar))
  }

  /** The first `k` stored messages as shown, with the uuids drawn from `d0` on. */
  function LoadedMessages(env: Env, mode: string, d0: nat, items: seq<Value>, k: nat): (ms: seq<Message>)
    requires k <= |items| && forall i :: 0 <= i < k ==> ItemOk(items[i])
    ensures |ms| == k
  {
    if k == 0 then []
    else LoadedMessages(env, mode, d0, items, k - 1) + [HistoryMessage(env, mode, env.uuid(d0 + k - 1), items[k - 1])]
  }

  /** The history response puts the greeting back alone: `data.data` is falsy. */
  predicate KeepsOnlyGreeting(outcome: HistoryOutcome) {
    outcome.History? && Prop(outcome.body, "data").Some? && !Truthy(Prop(outcome.body, "data").value)
  }

  /** `loadMessages(id)`. */
  function LoadSpec(env: Env, mode: string, s: Session, id: string, outcome: HistoryOutcome): Session
    requires KeepsOnlyGreeting(outcome) ==> |s.messages| > 0
  {
    match outcome
    case HistoryFailed => s
    case History(body) =>
      match Prop(body, "data")
      case None => s
      case Some(data) =>
        if !Truthy(data) then s.(messages := [s.messages[0]])
        else if !data.Arr? then s.(messages := [], chatId := id)
        else
          var k := FirstFailure(data.items);
          s.(messages := LoadedMessages(env, mode, s.drawn, data.items, k), chatId := id, drawn := s.drawn + k)
  }

  // ------------------------------------------------------------ properties

  /** Sending appends exactly one message, the user's: its content is the
      typed text, followed by the file names when there are any; the
      earlier messages are kept and the loader goes on. */
  lemma BeginTurnAppendsUserMessage(env: Env, s: Session, text: string, files: Option<seq<File>>, now: int)
    ensures var t := BeginTurn(env, s, text, files, now);
      |t.messages| == |s.messages| + 1 && t.messages[..|s.messages|] == s.messages
      && t.messages[|s.messages|].isSentByUser
      && t.messages[|s.messages|].fileNames == Some(FileNames(files))
      && t.loader && t.chatTitle == s.chatTitle && t.chatId == s.chatId
    ensures var m := BeginTurn(env, s, text, files, now).messages[|s.messages|];
      (|FileNames(files)| == 0 ==> m.content == Str(text))
      && (|FileNames(files)| > 0 ==> m.content == Str(text + "\nUploaded filename: " + Join(FileNames(files), "\n")))
  {
    var t := BeginTurn(env, s, text, files, now);
    assert t.messages[..|s.messages|] == s.messages;
  }

  /** The request carries the files in order, then the sent text, the chat
      id and the auth token, which is never set. */
  lemma RequestBodyLayout(s: Session, text: string, fs: seq<File>)
    ensures var body := RequestBody(s, text, Some(fs));
      |body| == |fs| + 3
      && (forall i :: 0 <= i < |fs| ==> body[i] == FileField(fs[i]))
      && body[|fs|] == TextField("message", AugmentedText(text, FileNames(Some(fs))))
      && body[|fs| + 1] == TextField("chatId", s.chatId)
      && body[|fs| + 2] == TextField("auth_token", "undefined")
  {
  }

  /** An update frame replaces the content of the last message and nothing
      else in the list. */
  lemma UpdateFrameReplacesLastContent(env: Env, mode: string, s: Session, piece: string,
                                       files: Option<seq<File>>, frame: Value)
    requires |s.messages| > 0
    requires env.parseJson(piece) == Some(frame) && Readable(frame) && IsUpdateFrame(frame)
    ensures var r := ApplyFrame(env, mode, s, piece, files); var n := |s.messages|;
      |r.messages| == n && r.messages[..n - 1] == s.messages[..n - 1]
      && r.messages[n - 1] == s.messages[n - 1].(content := Field(frame, "msg"))
      && r.drawn == s.drawn
  {
    var r := ApplyFrame(env, mode, s, piece, files);
    var n := |s.messages|;
    assert r.messages == ReplaceLastContent(s.messages, Field(frame, "msg"));
    assert r.messages[..n - 1] == s.messages[..n - 1];
  }

  /** An add frame with a string message appends exactly one message from
      the assistant, whose content is the message or its expansion. */
  lemma AddFrameAppendsOne(env: Env, mode: string, s: Session, piece: string,
                           files: Option<seq<File>>, frame: Value)
    requires |s.messages| > 0
    requires env.parseJson(piece) == Some(frame) && Readable(frame) && IsAddFrame(frame)
    requires Field(frame, "msg").Str?
    ensures var r := ApplyFrame(env, mode, s, piece, files); var n := |s.messages|;
      |r.messages| == n + 1 && r.messages[..n] == s.messages
      && !r.messages[n].isSentByUser
      && r.messages[n].content == ExpandSpecial(env, mode, Field(frame, "msg").s)
      && r.messages[n].id == env.uuid(s.drawn)
      && r.drawn == s.drawn + 1
  {
    var r := ApplyFrame(env, mode, s, piece, files);
    assert r.messages[..|s.messages|] == s.messages;
  }

  /** A frame that is neither an update nor an add, or an add whose message
      is not a string, leaves the messages alone. */
  lemma OtherFramesKeepMessages(env: Env, mode: string, s: Session, piece: string,
                                files: Option<seq<File>>, frame: Value)
    requires |s.messages| > 0
    requires env.parseJson(piece) == Some(frame) && Readable(frame)
    requires !IsUpdateFrame(frame) && (!IsAddFrame(frame) || !Field(frame, "msg").Str?)
    ensures ApplyFrame(env, mode, s, piece, files).messages == s.messages
    ensures ApplyFrame(env, mode, s, piece, files).drawn == s.drawn
  {
  }

  /** A piece that does not parse, or parses to `null`, changes nothing. */
  lemma UnreadablePieceIsSkipped(env: Env, mode: string, s: Session, piece: string, files: Option<seq<File>>)
    requires |s.messages| > 0
    requires env.parseJson(piece).None? || !Readable(env.parseJson(piece).value)
    ensures ApplyFrame(env, mode, s, piece, files) == s
  {
  }

  /** Loader and title follow the frame's `node_name` alone, whatever the
      message branch does: a terminal frame turns the loader off and sets
      the title only when `chat_title` is truthy. */
  lemma TerminalFrameStep(env: Env, mode: string, s: Session, piece: string,
                          files: Option<seq<File>>, frame: Value)
    requires |s.messages| > 0
    requires env.parseJson(piece) == Some(frame) && Readable(frame)
    ensures var r := ApplyFrame(env, mode, s, piece, files);
      r.loader == (if IsTerminal(frame) then false else s.loader)
      && r.chatTitle == (if IsTerminal(frame) && Truthy(Field(frame, "chat_title"))
                         then Field(frame, "chat_title") else s.chatTitle)
      && r.chatId == s.chatId
  {
    var t := TerminalStep(s, frame);
    assert |t.messages| > 0;
    var d := DispatchStep(env, mode, t, frame, files);
    assert d.Some? ==> d.value.loader == t.loader && d.value.chatTitle == t.chatTitle && d.value.chatId == t.chatId;
  }

  /** The message starts with "@@@", the rest parses to a readable value,
      and that value names one of the two templates. */
  predicate NamesTemplate(env: Env, msg: string) {
    StartsWith(msg, "@@@") && env.parseJson(msg[3..]).Some? && Readable(env.parseJson(msg[3..]).value)
    && (LooseEqualsString(Field(env.parseJson(msg[3..]).value, "template"), "html_dashboard")
        || LooseEqualsString(Field(env.parseJson(msg[3..]).value, "template"), "status_bar"))
  }

  /** A message that does not name a template is kept raw, "@@@" included. */
  lemma RawMessageKept(env: Env, mode: string, msg: string)
    requires !NamesTemplate(env, msg)
    ensures ExpandSpecial(env, mode, msg) == Str(msg)
  {
    if StartsWith(msg, "@@@") {
      match env.parseJson(msg[3..])
      case None =>
      case Some(special) =>
        if Readable(special) {
          UnnamedTemplateHasNoHtml(special, mode);
        }
    }
  }

  lemma UnnamedTemplateHasNoHtml(special: Value, mode: string)
    requires Readable(special)
    requires !LooseEqualsString(Field(special, "template"), "html_dashboard")
    requires !LooseEqualsString(Field(special, "template"), "status_bar")
    ensures TemplateHtml(special, mode).None?
  {
  }

  /** A message that names a template becomes that template's HTML, unless
      the generator throws, in which case it is kept raw. */
  lemma TemplateMessageExpanded(env: Env, mode: string, msg: string)
    requires NamesTemplate(env, msg)
    ensures var html := TemplateHtml(env.parseJson(msg[3..]).value, mode);
      ExpandSpecial(env, mode, msg) == (if html.Some? then Str(html.value) else Str(msg))
  {
  }

  /** Only the two known templates produce HTML: the dashboard for
      "html_dashboard", otherwise the status table for "status_bar". */
  lemma TemplateHtmlChoosesByName(special: Value, mode: string)
    requires Readable(special) && TemplateHtml(special, mode).Some?
    ensures LooseEqualsString(Field(special, "template"), "html_dashboard")
            || LooseEqualsString(Field(special, "template"), "status_bar")
    ensures LooseEqualsString(Field(special, "template"), "html_dashboard") ==>
              TemplateHtml(special, mode) == GenerateDashboardMessage(Field(special, "data"), mode)
    ensures !LooseEqualsString(Field(special, "template"), "html_dashboard") ==>
              TemplateHtml(special, mode) == StatusTable(Field(special, "data"))
  {
  }

  /** The dashboard template with readable data always expands. */
  lemma DashboardTemplateExpands(env: Env, mode: string, msg: string, special: Value)
    requires StartsWith(msg, "@@@") && env.parseJson(msg[3..]) == Some(special) && Readable(special)
    requires LooseEqualsString(Field(special, "template"), "html_dashboard")
    requires Readable(Field(special, "data"))
    ensures ExpandSpecial(env, mode, msg) == Str(GenerateDashboardMessage(Field(special, "data"), mode).value)
  {
    assert NamesTemplate(env, msg);
    TemplateMessageExpanded(env, mode, msg);
    TemplateHtmlChoosesByName(special, mode);
  }

  /** Frames never remove a message and never touch any but the last one
      present: everything they add comes from the assistant, and the chat
      id stays. */
  lemma {:induction false} ApplyPiecesKeepsHistory(env: Env, mode: string, s: Session,
                                                   pieces: seq<string>, files: Option<seq<File>>)
    requires |s.messages| > 0
    ensures var r := ApplyPieces(env, mode, s, pieces, files); var n := |s.messages|;
      r.messages[..n - 1] == s.messages[..n - 1]
      && (forall i :: n <= i < |r.messages| ==> !r.messages[i].isSentByUser)
      && r.chatId == s.chatId && r.drawn >= s.drawn
  {
    if |pieces| > 0 {
      var init := pieces[..|pieces| - 1];
      ApplyPiecesKeepsHistory(env, mode, s, init, files);
      var m := ApplyPieces(env, mode, s, init, files);
      var r := ApplyFrame(env, mode, m, pieces[|pieces| - 1], files);
      ApplyFrameKeepsHistory(env, mode, m, pieces[|pieces| - 1], files);
      var n := |s.messages|;
      assert r.messages[..n - 1] == m.messages[..n - 1] by {
        assert r.messages[..|m.messages| - 1] == m.messages[..|m.messages| - 1];
        assert r.messages[..|m.messages| - 1][..n - 1] == r.messages[..n - 1];
        assert m.messages[..|m.messages| - 1][..n - 1] == m.messages[..n - 1];
      }
    }
  }

  lemma ApplyFrameKeepsHistory(env: Env, mode: string, s: Session, piece: string, files: Option<seq<File>>)
    requires |s.messages| > 0
    ensures var r := ApplyFrame(env, mode, s, piece, files); var n := |s.messages|;
      r.messages[..n - 1] == s.messages[..n - 1]
      && (n <= |r.messages| && (forall i :: n <= i < |r.messages| ==> !r.messages[i].isSentByUser))
      && (r.messages[n - 1].isSentByUser == s.messages[n - 1].isSentByUser)
      && r.chatId == s.chatId && r.drawn >= s.drawn
  {
    match env.parseJson(piece)
    case None =>
    case Some(frame) =>
      if Readable(frame) {
        var t := TerminalStep(s, frame);
        assert t.messages == s.messages && t.chatId == s.chatId && t.drawn == s.drawn;
        if DispatchStep(env, mode, t, frame, files).Some? {
          DispatchKeepsHistory(env, mode, t, frame, files);
        }
      }
  }

  /** The message branch keeps all but the last message, changes only the
      content of the last, and adds only bot messages. */
  lemma DispatchKeepsHistory(env: Env, mode: string, t: Session, frame: Value, files: Option<seq<File>>)
    requires Readable(frame) && |t.messages| > 0
    requires DispatchStep(env, mode, t, frame, files).Some?
    ensures var u := DispatchStep(env, mode, t, frame, files).value; var n := |t.messages|;
      u.messages[..n - 1] == t.messages[..n - 1]
      && (n <= |u.messages| && (forall i :: n <= i < |u.messages| ==> !u.messages[i].isSentByUser))
      && (u.messages[n - 1].isSentByUser == t.messages[n - 1].isSentByUser)
      && u.chatId == t.chatId && u.drawn >= t.drawn
  {
    var n := |t.messages|;
    if IsUpdateFrame(frame) {
      var ms := ReplaceLastContent(t.messages, Field(frame, "msg"));
      assert ms[..n - 1] == t.messages[..n - 1];
    } else if IsAddFrame(frame) {
      var m := BotMessage(env.uuid(t.drawn), ExpandSpecial(env, mode, Field(frame, "msg").s), files);
      var ms := t.messages + [m];
      assert ms[..n - 1] == t.messages[..n - 1] && ms[n - 1] == t.messages[n - 1];
      assert !m.isSentByUser;
    }
  }

  /** Applying two runs of pieces one after the other is applying their
      concatenation. */
  lemma {:induction false} ApplyPiecesAppend(env: Env, mode: string, s: Session,
                                             xs: seq<string>, ys: seq<string>, files: Option<seq<File>>)
    requires |s.messages| > 0
    ensures ApplyPieces(env, mode, s, xs + ys, files)
         == ApplyPieces(env, mode, ApplyPieces(env, mode, s, xs, files), ys, files)
  {
    if |ys| == 0 {
      assert xs + ys == xs;
    } else {
      ApplyPiecesAppend(env, mode, s, xs, ys[..|ys| - 1], files);
      assert (xs + ys)[..|xs + ys| - 1] == xs + ys[..|ys| - 1];
    }
  }

  /** When a read ends right after a `}` and the next starts with `{`, the
      two reads have the effect of one read of both. */
  lemma AlignedChunksReceiveAsOne(env: Env, mode: string, s: Session, a: string, b: string,
                                  files: Option<seq<File>>)
    requires |s.messages| > 0
    requires EndsWithClose(a) && StartsWithOpen(b)
    ensures ReceiveChunkSpec(env, mode, ReceiveChunkSpec(env, mode, s, a, files), b, files)
         == ReceiveChunkSpec(env, mode, s, a + b, files)
  {
    AlignedChunksSplitAsOne(a, b);
    ApplyPiecesAppend(env, mode, s, SplitFrames(a), SplitFrames(b), files);
  }

  /** A request that fails or gets a non-ok response leaves the user's
      message and one error message after it; the loader stays on. */
  lemma FailedRequestAddsOneError(env: Env, mode: string, s: Session, text: string,
                                  files: Option<seq<File>>, sentAt: int, outcome: FetchOutcome, failedAt: int)
    requires outcome.Rejected? || outcome.NotOk?
    ensures var r := Turn(env, mode, s, text, files, sentAt, outcome, failedAt);
      r.messages == s.messages + [UserMessage(env, text, files, sentAt), ErrorMessage(failedAt, files)]
      && r.loader
      && !r.messages[|s.messages| + 1].isSentByUser
      && r.messages[|s.messages| + 1].content == Str(ErrorText)
  {
  }

  /** A read that fails mid-stream appends exactly one error message to
      whatever the chunks read so far produced, and leaves the loader as
      those chunks left it. */
  lemma BrokenStreamAddsOneError(env: Env, mode: string, s: Session, text: string,
                                 files: Option<seq<File>>, sentAt: int, chunks: seq<string>, failedAt: int)
    ensures var r := Turn(env, mode, s, text, files, sentAt, Stream(chunks, true), failedAt);
      var q := Turn(env, mode, s, text, files, sentAt, Stream(chunks, false), failedAt);
      r.messages == q.messages + [ErrorMessage(failedAt, files)] && r.loader == q.loader
  {
  }

  /** "New chat" keeps exactly the first message and draws a fresh id. */
  lemma NewChatKeepsGreeting(env: Env, s: Session)
    requires |s.messages| > 0
    ensures NewChatSpec(env, s).messages == [s.messages[0]]
    ensures NewChatSpec(env, s).chatId == env.uuid(s.drawn)
    ensures NewChatSpec(env, s).loader == s.loader
  {
  }

  /** Showing one more stored message appends it, with the next uuid. */
  lemma LoadedMessagesSnoc(env: Env, mode: string, d0: nat, items: seq<Value>, k: nat)
    requires k < |items| && forall i :: 0 <= i <= k ==> ItemOk(items[i])
    ensures LoadedMessages(env, mode, d0, items, k + 1)
            == LoadedMessages(env, mode, d0, items, k) + [HistoryMessage(env, mode, env.uuid(d0 + k), items[k])]
  {
  }

  lemma {:induction false} LoadedMessagesAt(env: Env, mode: string, d0: nat, items: seq<Value>, k: nat, i: nat)
    requires k <= |items| && forall j :: 0 <= j < k ==> ItemOk(items[j])
    requires i < k
    ensures LoadedMessages(env, mode, d0, items, k)[i] == HistoryMessage(env, mode, env.uuid(d0 + i), items[i])
  {
    var prev := LoadedMessages(env, mode, d0, items, k - 1);
    var last := HistoryMessage(env, mode, env.uuid(d0 + (k - 1)), items[k - 1]);
    LoadedMessagesSnoc(env, mode, d0, items, k - 1);
    assert LoadedMessages(env, mode, d0, items, k) == prev + [last];
    if i < k - 1 {
      LoadedMessagesAt(env, mode, d0, items, k - 1, i);
      assert (prev + [last])[i] == prev[i];
    } else {
      assert (prev + [last])[i] == last;
    }
  }

  /** A loaded history shows the stored messages up to the first that
      throws, in order; a message is the user's exactly when its role is
      "human", and only the assistant's carry the avatar. */
  lemma LoadMapsRoles(env: Env, mode: string, s: Session, id: string, body: Value)
    requires Prop(body, "data").Some? && Prop(body, "data").value.Arr?
    ensures var items := Prop(body, "data").value.items;
      var r := LoadSpec(env, mode, s, id, History(body));
      |r.messages| == FirstFailure(items) && r.chatId == id
      && forall i :: 0 <= i < |r.messages| ==>
           (r.messages[i].isSentByUser <==> LooseEqualsString(Prop(items[i], "role").value, "human"))
           && r.messages[i].avatarUrl == Some(if r.messages[i].isSentByUser then "" else BotAvatar)
           && r.messages[i].content == ExpandSpecial(env, mode, Prop(items[i], "content").value.s)
  {
    var items := Prop(body, "data").value.items;
    var k := FirstFailure(items);
    var ms := LoadedMessages(env, mode, s.drawn, items, k);
    var r := LoadSpec(env, mode, s, id, History(body));
    assert r.messages == ms && r.chatId == id;
    forall i | 0 <= i < k
      ensures (ms[i].isSentByUser <==> LooseEqualsString(Prop(items[i], "role").value, "human"))
              && ms[i].avatarUrl == Some(if ms[i].isSentByUser then "" else BotAvatar)
              && ms[i].content == ExpandSpecial(env, mode, Prop(items[i], "content").value.s)
    {
      LoadedMessagesAt(env, mode, s.drawn, items, k, i);
    }
  }

  /** The loop of the `forEach` over the stored messages: each one shown in
      turn, with the next uuid, until the first one that throws. */
  method ShowHistory(env: Env, mode: string, d0: nat, items: seq<Value>) returns (shown: seq<Message>, count: nat)
    ensures count == FirstFailure(items)
    ensures shown == LoadedMessages(env, mode, d0, items, count)
  {
    ghost var k := FirstFailure(items);
    shown := [];
    count := 0;
    while count < |items|
      invariant count <= k
      invariant shown == LoadedMessages(env, mode, d0, items, count)
    {
      var content := Prop(items[count], "content");
      if content.None? || !content.value.Str? {
        assert !ItemOk(items[count]);
        break;
      }
      assert ItemOk(items[count]) && count < k;
      LoadedMessagesSnoc(env, mode, d0, items, count);
      shown := shown + [HistoryMessage(env, mode, env.uuid(d0 + count), items[count])];
      count := count + 1;
    }
  }

  // ------------------------------------------------------------ the page

  class ChatApp {
    var messages: seq<Message>
    var loader: bool
    var chatTitle: Value
    var chatId: string
    var drawn: nat
    const env: Env

    function Snapshot(): Session
      reads this
    {
      Session(messages, loader, chatTitle, chatId, drawn)
    }

    constructor(env: Env, now: int)
      ensures this.env == env
      ensures Snapshot() == InitialSession(env, now)
    {
      this.env := env;
      messages := [Greeting(now)];
      loader := false;
      chatTitle := Str("");
      chatId := env.uuid(0);
      drawn := 1;
    }

    /** The body of the `forEach` callback for one piece. */
    method HandleFrame(piece: string, files: Option<seq<File>>, mode: string)
      requires |messages| > 0
      modifies this
      ensures Snapshot() == ApplyFrame(env, mode, old(Snapshot()), piece, files)
    {
      var parsed := env.parseJson(piece);
      if parsed.None? || !Readable(parsed.value) {
        return;
      }
      var frame := parsed.value;
      if IsTerminal(frame) {
        loader := false;
        var title := Field(frame, "chat_title");
        if Truthy(title) {
          chatTitle := title;
        }
      }
      ghost var t := Snapshot();
      assert t == TerminalStep(old(Snapshot()), frame);
      if IsUpdateFrame(frame) {
        messages := ReplaceLastContent(messages, Field(frame, "msg"));
        assert Snapshot() == DispatchStep(env, mode, t, frame, files).value;
      } else if IsAddFrame(frame) {
        var msg := Field(frame, "msg");
        if !msg.Str? {
          return;
        }
        var content := ExpandSpecial(env, mode, msg.s);
        messages := messages + [BotMessage(env.uuid(drawn), content, files)];
        drawn := drawn + 1;
        assert Snapshot() == DispatchStep(env, mode, t, frame, files).value;
      }
    }

    /** One decoded chunk: split, then each piece in turn. */
    method ReceiveChunk(chunk: string, files: Option<seq<File>>, mode: string)
      requires |messages| > 0
      modifies this
      ensures Snapshot() == ReceiveChunkSpec(env, mode, old(Snapshot()), chunk, files)
    {
      var pieces := SplitFrames(chunk);
      var i := 0;
      while i < |pieces|
        invariant 0 <= i <= |pieces|
        invariant |messages| > 0
        invariant Snapshot() == ApplyPieces(env, mode, old(Snapshot()), pieces[..i], files)
      {
        assert pieces[..i + 1][..i] == pieces[..i];
        HandleFrame(pieces[i], files, mode);
        i := i + 1;
      }
      assert pieces[..|pieces|] == pieces;
    }

    /** The catch block of `handleSendMessage`. */
    method ReportFailure(files: Option<seq<File>>, failedAt: int)
      modifies this
      ensures Snapshot() == FailTurn(old(Snapshot()), files, failedAt)
    {
      messages := messages + [ErrorMessage(failedAt, files)];
    }

    /** The part of `handleSendMessage` before the request: collect the
        file names, append the user's message, build the body, turn the
        loader on. */
    method BeginSend(text: string, files: Option<seq<File>>, sentAt: int) returns (body: seq<FormField>)
      modifies this
      ensures body == RequestBody(old(Snapshot()), text, files)
      ensures Snapshot() == BeginTurn(env, old(Snapshot()), text, files, sentAt)
    {
      var names: seq<string> := [];
      body := [];
      if files.Some? {
        var fs := files.value;
        var i := 0;
        while i < |fs|
          invariant 0 <= i <= |fs|
          invariant names == FileNames(Some(fs[..i]))
          invariant body == seq(i, k requires 0 <= k < i => FileField(fs[k]))
        {
          names := names + [fs[i].name];
          body := body + [FileField(fs[i])];
          i := i + 1;
        }
        assert fs[..|fs|] == fs;
      }
      var sent := text + (if |names| > 0 then "\nUploaded filename: " + Join(names, "\n") else "");
      var urls := match files
        case None => None
        case Some(fs) => Some(seq(|fs|, i requires 0 <= i < |fs| => env.objectUrl(fs[i])));
      messages := messages + [Message(IntToString(sentAt), Str(sent), true, urls, Some(FileNames(files)), None)];
      body := body + [TextField("message", sent), TextField("chatId", chatId), TextField("auth_token", "undefined")];
      loader := true;
    }

    /** The read loop: every chunk in turn. */
    method ReadStream(chunks: seq<string>, files: Option<seq<File>>, mode: string)
      requires |messages| > 0
      modifies this
      ensures Snapshot() == ReceiveAll(env, mode, old(Snapshot()), chunks, files)
    {
      var j := 0;
      while j < |chunks|
        invariant 0 <= j <= |chunks|
        invariant |messages| > 0
        invariant Snapshot() == ReceiveAll(env, mode, old(Snapshot()), chunks[..j], files)
      {
        assert chunks[..j + 1][..j] == chunks[..j];
        ReceiveChunk(chunks[j], files, mode);
        j := j + 1;
      }
      assert chunks[..|chunks|] == chunks;
    }

    /** `handleSendMessage(text, files)`, with the network's behaviour given
        as `outcome`; returns the request body sent. */
    method HandleSendMessage(text: string, files: Option<seq<File>>, sentAt: int,
                             outcome: FetchOutcome, failedAt: int, mode: string)
      returns (body: seq<FormField>)
      modifies this
      ensures body == RequestBody(old(Snapshot()), text, files)
      ensures Snapshot() == Turn(env, mode, old(Snapshot()), text, files, sentAt, outcome, failedAt)
    {
      body := BeginSend(text, files, sentAt);
      match outcome {
        case Rejected =>
          ReportFailure(files, failedAt);
        case NotOk =>
          ReportFailure(files, failedAt);
        case Stream(chunks, readFails) =>
          ReadStream(chunks, files, mode);
          if readFails {
            ReportFailure(files, failedAt);
          }
      }
    }

    /** The "New chat" button. */
    method NewChat()
      requires |messages| > 0
      modifies this
      ensures Snapshot() == NewChatSpec(env, old(Snapshot()))
    {
      chatId := env.uuid(drawn);
      drawn := drawn + 1;
      messages := [messages[0]];
    }

    /** `loadMessages(id)`, with the history request's result given as `outcome`. */
    method LoadMessages(id: string, outcome: HistoryOutcome, mode: string)
      requires KeepsOnlyGreeting(outcome) ==> |messages| > 0
      modifies this
      ensures Snapshot() == LoadSpec(env, mode, old(Snapshot()), id, outcome)
    {
      if outcome.HistoryFailed? {
        return;
      }
      var data := Prop(outcome.body, "data");
      if data.None? {
        return;
      }
      if !Truthy(data.value) {
        messages := [messages[0]];
        return;
      }
      messages := [];
      chatId := id;
      if data.value.Arr? {
        AppendHistory(data.value.items, mode);
      }
    }

    /** The `forEach` over the stored messages, which stops at the first one
        that throws. */
    method AppendHistory(items: seq<Value>, mode: string)
      requires messages == []
      modifies this
      ensures messages == LoadedMessages(env, mode, old(drawn), items, FirstFailure(items))
      ensures drawn == old(drawn) + FirstFailure(items)
      ensures chatId == old(chatId) && loader == old(loader) && chatTitle == old(chatTitle)
    {
      var shown, count := ShowHistory(env, mode, drawn, items);
      messages := shown;
      drawn := drawn + count;
    }
  }
}
