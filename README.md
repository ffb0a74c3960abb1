# Chat client core of the real-estate assistant, in Dafny

This project models the browser side of the chat page of a real-estate
assistant (`client/src/components/chat-page`).

**The chat page (`page.tsx`).**
- The user sends a text, optionally with files. The user's message is shown at once, and the request body is built from the files, the text, the chat id and the auth token.
- The reply arrives as a stream of chunks. Each chunk is cut into JSON frames wherever a `}` is followed, after optional whitespace, by a `{`.
- Frames are dispatched one at a time:
  - a terminal frame clears the loader and may set the chat title;
  - an "update" frame replaces the content of the last message;
  - an "add" frame appends a bot message.
- A message starting with `@@@` that names the `html_dashboard` or `status_bar` template is rendered to HTML.
- A failed request adds one error message.
- "New chat" keeps only the greeting under a fresh chat id.
- Loading a chat's history maps the stored messages, up to the first malformed one, to bubbles: human messages are the user's, all others the bot's.

**The HTML generators (`constants.ts`).** The deal dashboard and the seven-column deal status table.

**The input box (`ChatInput.tsx`).**
- When a message is sent, and what is sent.
- File selection and removal.
- The three quick commands.

**Message bubbles (`ChatMessage.tsx`).** Which attachments a bubble shows as images, by file extension, ignoring case.

**The Markdown renderer (`MarkdownComp.tsx`).**
- The coloured status cells (`_complete`, `_pending`, `_canceled`).
- The language a fenced code block is highlighted with.

**Four edit dialogs.** Each is opened with structured data and submitted back to the chat as a Markdown summary and a raw payload:
- the project timeline (`TimelineEditForm.tsx`);
- the seller counter offer (`SCODocumentEditForm.tsx`);
- the purchase agreement (`RPADocumentEditForm.tsx`);
- the user permissions (`UserPermissionForm.tsx`).

## How the model is built

**JavaScript values.**
- A JSON value is `Js.Value`. The model writes out the operations the code relies on: truthiness, `String(v)`, loose `==` against a string literal, property access (which throws on `null` and `undefined`), object spread, `trim` and `parseInt`.
- Every place where the source throws a TypeError or RangeError that it does not catch becomes an `Option` that is `None`.

**Calls the model cannot see become parameters.**
- `JSON.parse` and `JSON.stringify`.
- `uuidv4`: the n-th identifier drawn.
- `URL.createObjectURL`, `new Date`, the clock and the Los Angeles local time.
- date-fns `format`/`addDays`.

**State that the source updates.**
- The chat page's state is the class `ChatPage.ChatApp`. Its methods are proved against pure functions on a `Session` value (`Snapshot() == Spec(old(Snapshot()))`), and the properties are lemmas about those functions.
- The input box and the four dialogs are classes in the same way: `ChatInput.ChatInputBox`, `TimelineForm.TimelineEditor`, `ScoForm.ScoEditor`, `RpaForm.RpaEditor` and `UserPermissionForm.PermissionEditor`.

**Code that builds text with `+=` in a loop** is a method with a loop, proved equal to a recursive function:
- the status table (with its per-row inner loop);
- the timeline table;
- the permission table;
- the chunk loop and the history loop;
- the SCO date-field rewrite.

**What the code does, which a reader might not expect:**
- **Chunk boundaries.** The code splits every chunk on its own and keeps no text across chunks. A frame cut by a chunk boundary is therefore lost, not reassembled. `FrameSplit.ChunkBoundaryMatters` exhibits two chunks whose frames differ from those of their concatenation. `FrameSplit.AlignedChunksSplitAsOne` and `ChatPage.AlignedChunksReceiveAsOne` prove that chunks cut between `}` and `{` behave as one.
- **Loader on a failed request.** A failed request leaves the loader on: the catch block only appends the error message (`ChatPage.FailedRequestAddsOneError`).
- **"update" frames.** An "update" frame replaces the last message's content with the frame's `msg`; it does not concatenate (`ChatPage.UpdateFrameReplacesLastContent`).
- **`@@@` messages.** A `@@@` message that names neither template is shown as raw text (`ChatPage.RawMessageKept`).

## Model

Rows whose third column starts with "definition:" name the member that models the code itself; its properties are the rows that follow it. Rows starting with "helper:" are steps of a larger proof.

| member | source | states |
|---|---|---|
| ChatPage.Greeting | client/src/components/chat-page/page.tsx:34-43 | definition: the greeting bubble: the fixed welcome text, not the user's, no file names, the bot avatar |
| ChatPage.InitialSession | client/src/components/chat-page/page.tsx:34-52 | definition: the opening state: the greeting alone, loader off, empty title, the first drawn id as chat id |
| ChatPage.ChatApp.constructor | client/src/components/chat-page/page.tsx:34-52 | the page opens with the greeting alone (bot avatar, no files), a fresh chat id, loader off and an empty title |
| ChatPage.ChatApp.BeginSend | client/src/components/chat-page/page.tsx:63-102 | the user's message is appended and the loader set; the request body returned is the files, then the message, the chat id and the unset auth token |
| ChatPage.FileNames | client/src/components/chat-page/page.tsx:92 | definition: `files?.map((f) => f.name) \|\| []`, also used at lines 188 and 206 |
| ChatPage.AugmentedText | client/src/components/chat-page/page.tsx:81-85 | definition: the typed text, then "\nUploaded filename: " and the names joined by newlines when there are any |
| ChatPage.UserMessage | client/src/components/chat-page/page.tsx:87-93 | definition: the user's bubble: the augmented text, sent by the user, with an object URL per file and the file names |
| ChatPage.BeginTurn | client/src/components/chat-page/page.tsx:63-102 | definition: the state after the user presses send and before the fetch |
| ChatPage.BeginTurnAppendsUserMessage | client/src/components/chat-page/page.tsx:81-95 | sending appends exactly one user message whose text carries "\nUploaded filename: " and the names joined by newlines when there are files, whose file names are the files' names, and sets the loader |
| ChatPage.RequestBodyLayout | client/src/components/chat-page/page.tsx:65-100 | the form data holds one `files` field per file, in order, then `message`, `chatId` and `auth_token` = "undefined" |
| ChatPage.RequestBody | client/src/components/chat-page/page.tsx:65-100 | definition: the fields appended to the request's form data, in order |
| ChatPage.ChatApp.HandleFrame | client/src/components/chat-page/page.tsx:132-196 | handling one piece changes the state exactly as the frame step function says |
| ChatPage.ApplyFrame | client/src/components/chat-page/page.tsx:132-196 | handling a frame never removes a message |
| ChatPage.TerminalStep | client/src/components/chat-page/page.tsx:138-146 | definition: the loader and title update of one frame |
| ChatPage.ReplaceLastContent | client/src/components/chat-page/page.tsx:155-160 | definition: the last message with its content replaced |
| ChatPage.IsTerminal | client/src/components/chat-page/page.tsx:138-141 | definition: `node_name == "end_node" \|\| node_name == "__interrupt__"`, compared loosely |
| ChatPage.IsStreamStatus | client/src/components/chat-page/page.tsx:149-151 | definition: status `===` "node_stream", "custom_stream" or "interrupted_msg" |
| ChatPage.IsUpdateFrame | client/src/components/chat-page/page.tsx:148-153 | definition: a status of the three stream kinds, type `=== "update"` and `msg != ""` |
| ChatPage.IsAddFrame | client/src/components/chat-page/page.tsx:162 | definition: not an update frame, type `=== "add"` and `msg != ""` (the `else if`) |
| ChatPage.DispatchStep | client/src/components/chat-page/page.tsx:148-192 | definition: the message branch of one frame, None when an add frame's msg is not a string |
| ChatPage.UnreadablePieceIsSkipped | client/src/components/chat-page/page.tsx:133-134 | a piece that does not parse, or parses to null, changes nothing |
| ChatPage.TerminalFrameStep | client/src/components/chat-page/page.tsx:138-146 | a frame whose node_name loosely equals "end_node" or "__interrupt__" clears the loader and sets the title when its chat_title is truthy; any other frame leaves both |
| ChatPage.UpdateFrameReplacesLastContent | client/src/components/chat-page/page.tsx:148-161 | an update frame of a streaming status with a non-empty msg replaces only the last message's content, draws no id, and keeps every earlier message |
| ChatPage.AddFrameAppendsOne | client/src/components/chat-page/page.tsx:162-191 | an add frame with a string msg appends exactly one bot message with the next drawn id and the expanded text |
| ChatPage.BotMessage | client/src/components/chat-page/page.tsx:182-191 | definition: an assistant bubble: the given id and content, not the user's, the file names and the bot avatar |
| ChatPage.OtherFramesKeepMessages | client/src/components/chat-page/page.tsx:148-192 | any other frame leaves the messages and the drawn ids unchanged |
| ChatPage.ExpandSpecial | client/src/components/chat-page/page.tsx:163-180 | definition: an "@@@" message replaced by its template's HTML, or kept raw when anything throws |
| ChatPage.TemplateHtml | client/src/components/chat-page/page.tsx:169-176 | definition: the dashboard or the status table chosen by the template name |
| ChatPage.RawMessageKept | client/src/components/chat-page/page.tsx:163-180 | a msg that does not start with "@@@", does not parse, or names no known template is shown as it is |
| ChatPage.TemplateMessageExpanded | client/src/components/chat-page/page.tsx:165-176 | a msg naming a template is shown as that template's HTML |
| ChatPage.TemplateHtmlChoosesByName | client/src/components/chat-page/page.tsx:169-176 | a template is rendered only for the names html_dashboard (the dashboard, checked first) and status_bar (the status table) |
| ChatPage.UnnamedTemplateHasNoHtml | client/src/components/chat-page/page.tsx:169-176 | a template named neither html_dashboard nor status_bar renders no HTML |
| ChatPage.DashboardTemplateExpands | client/src/components/chat-page/page.tsx:169-173 | an html_dashboard message is shown as the dashboard of its data in the current mode |
| ChatPage.ApplyFrameKeepsHistory | client/src/components/chat-page/page.tsx:132-196 | one frame keeps every message before the last, adds only bot messages and keeps the chat id |
| ChatPage.DispatchKeepsHistory | client/src/components/chat-page/page.tsx:148-192 | helper: the message branch of a frame keeps every message before the last, adds only bot messages and keeps the chat id |
| ChatPage.ApplyPieces | client/src/components/chat-page/page.tsx:132-196 | the pieces of a chunk never shrink the message list |
| ChatPage.ApplyPiecesKeepsHistory | client/src/components/chat-page/page.tsx:132-196 | a sequence of frames keeps every message before the last, adds only bot messages, keeps the chat id and never reuses an id |
| ChatPage.ApplyPiecesAppend | client/src/components/chat-page/page.tsx:132 | handling xs then ys is handling xs + ys |
| ChatPage.ChatApp.ReceiveChunk | client/src/components/chat-page/page.tsx:126-197 | one chunk is split into frames and each frame handled in order |
| ChatPage.ReceiveChunkSpec | client/src/components/chat-page/page.tsx:126-197 | a chunk never shrinks the message list |
| ChatPage.AlignedChunksReceiveAsOne | client/src/components/chat-page/page.tsx:126-132 | two chunks cut between a `}` and a `{` give the same state as their concatenation |
| ChatPage.ChatApp.ReadStream | client/src/components/chat-page/page.tsx:122-198 | the read loop handles the chunks in order |
| ChatPage.ReceiveAll | client/src/components/chat-page/page.tsx:122-198 | the whole stream never shrinks the message list |
| ChatPage.ChatApp.ReportFailure | client/src/components/chat-page/page.tsx:199-210 | the catch block appends the error message and changes nothing else |
| ChatPage.ErrorMessage | client/src/components/chat-page/page.tsx:201-210 | definition: the error bubble: id `Date.now() + 1`, the fixed error text, the file names and the bot avatar |
| ChatPage.FailTurn | client/src/components/chat-page/page.tsx:199-210 | definition: the catch block's state: one error message appended |
| ChatPage.Turn | client/src/components/chat-page/page.tsx:63-212 | definition: a whole send, from the state before to the state after, for each network outcome |
| ChatPage.FailedRequestAddsOneError | client/src/components/chat-page/page.tsx:113-115 | a rejected or non-ok request leaves the user's message and then exactly one bot error message, and the loader still on |
| ChatPage.BrokenStreamAddsOneError | client/src/components/chat-page/page.tsx:199-210 | a stream that fails while reading ends with what it had shown plus exactly one error message |
| ChatPage.ChatApp.HandleSendMessage | client/src/components/chat-page/page.tsx:63-212 | a whole turn: the request body and the state after success, a failed request or a broken stream |
| ChatPage.ChatApp.NewChat | client/src/components/chat-page/page.tsx:318-324 | "New chat" draws a new id and keeps the first message alone |
| ChatPage.NewChatSpec | client/src/components/chat-page/page.tsx:318-324 | definition: "New chat": a fresh id and the first message alone |
| ChatPage.NewChatKeepsGreeting | client/src/components/chat-page/page.tsx:318-324 | after "New chat" the list is exactly the first message and the chat id is the next drawn id; the loader is untouched |
| ChatPage.ChatApp.LoadMessages | client/src/components/chat-page/page.tsx:214-269 | loading a chat replaces the list by its history, keeps only the first message when the history is empty-valued, and changes nothing when the request fails |
| ChatPage.ChatApp.AppendHistory | client/src/components/chat-page/page.tsx:229-259 | the forEach appends one message per stored item up to the first item whose content is not a string |
| ChatPage.LoadSpec | client/src/components/chat-page/page.tsx:214-269 | definition: the state after loading a chat for each outcome of the request |
| ChatPage.HistoryMessage | client/src/components/chat-page/page.tsx:231-257 | definition: one stored item as a bubble: its content expanded like a streamed message, its role deciding the sender and avatar |
| ChatPage.ItemOk | client/src/components/chat-page/page.tsx:229-232 | definition: a stored item whose content is a string, so `msg.content.startsWith` does not throw |
| ChatPage.FirstFailure | client/src/components/chat-page/page.tsx:229-232 | the index of the first history item that throws: every earlier item is well formed and that one is not |
| ChatPage.LoadedMessages | client/src/components/chat-page/page.tsx:229-259 | one message per successfully processed item |
| ChatPage.LoadedMessagesSnoc | client/src/components/chat-page/page.tsx:249-258 | helper: the messages for one more well-formed item are the earlier ones followed by that item's message |
| ChatPage.LoadedMessagesAt | client/src/components/chat-page/page.tsx:249-258 | message i is item i's message with the i-th drawn id |
| ChatPage.ShowHistory | client/src/components/chat-page/page.tsx:229-259 | the loop stops at the first item that throws and has shown one message per earlier item |
| ChatPage.LoadMapsRoles | client/src/components/chat-page/page.tsx:223-258 | after loading, the chat id is the loaded one and each message is the user's exactly when its role loosely equals "human", with avatar "" for the user and the bot icon otherwise, and with its content expanded like a streamed message |
| FrameSplit.SplitFrames | client/src/components/chat-page/page.tsx:127-130 | definition: a chunk split on `/(?<=\})\s*(?=\{)/` |
| FrameSplit.WsEnd | client/src/components/chat-page/page.tsx:130 | the end of the whitespace run `\s*` starting at a position |
| FrameSplit.SplitScan | client/src/components/chat-page/page.tsx:130 | the split always yields at least one piece |
| FrameSplit.SplitGaps | client/src/components/chat-page/page.tsx:130 | there is one gap between each two pieces |
| FrameSplit.SplitScanRejoin | client/src/components/chat-page/page.tsx:130 | pieces and gaps rejoin to the scanned text and every gap is whitespace |
| FrameSplit.SplitDropsOnlyWhitespace | client/src/components/chat-page/page.tsx:127-130 | splitting a chunk loses nothing but the whitespace between a `}` and a `{` |
| FrameSplit.SplitScanBraces | client/src/components/chat-page/page.tsx:130 | every piece but the last ends with `}` and every piece but the first starts with `{` |
| FrameSplit.BracedCons | client/src/components/chat-page/page.tsx:130 | helper: a piece ending with `}` put before braced pieces keeps every piece braced |
| FrameSplit.SplitCutsBetweenBraces | client/src/components/chat-page/page.tsx:127-130 | the split only cuts between a `}` and a `{` |
| FrameSplit.ChunkBoundaryMatters | client/src/components/chat-page/page.tsx:126-130 | "{}{x" and "}" split separately give frames different from "{}{x}" split at once |
| FrameSplit.WsEndInPrefix | client/src/components/chat-page/page.tsx:130 | helper: inside a prefix ending with `}`, a whitespace run ends in the prefix |
| FrameSplit.WsEndInSuffix | client/src/components/chat-page/page.tsx:130 | helper: a whitespace run inside a suffix ends where it ends in the suffix alone |
| FrameSplit.CutInSuffix | client/src/components/chat-page/page.tsx:130 | helper: a cut inside the suffix is a cut of the suffix alone |
| FrameSplit.SuffixCutsAgree | client/src/components/chat-page/page.tsx:130 | helper: inside a suffix that starts with `{`, whitespace runs and cuts are those of the suffix alone |
| FrameSplit.ScanCut | client/src/components/chat-page/page.tsx:130 | helper: at a cut the scan emits the piece so far and restarts after the whitespace |
| FrameSplit.SplitScanSuffix | client/src/components/chat-page/page.tsx:130 | scanning inside a suffix that starts with `{` is scanning that suffix alone |
| FrameSplit.SplitScanPrefix | client/src/components/chat-page/page.tsx:130 | scanning across a `}`/`{` seam is the prefix's pieces followed by the suffix's |
| FrameSplit.AlignedChunksSplitAsOne | client/src/components/chat-page/page.tsx:127-130 | a text ending with `}` followed by one starting with `{` splits into the pieces of each, in order |
| Constants.DashboardPalette | client/src/components/chat-page/constants.ts:22-27 | dark mode gives circle #444, text #fff, container #333; any other mode #ddd, #000, #fff |
| Constants.GenerateDashboardMessage | client/src/components/chat-page/constants.ts:20-21 | the dashboard throws exactly when the data is undefined or null |
| Constants.DashboardIn | client/src/components/chat-page/constants.ts:20-90 | the dashboard in a given palette throws exactly when the data is undefined or null |
| Constants.DashboardInObj | client/src/components/chat-page/constants.ts:29-90 | helper: an object's dashboard shows its active_deals, less_than_2_days_deals and closed_deals as strings |
| Constants.DashboardTile | client/src/components/chat-page/constants.ts:40-55 | definition: one tile: its comment, a circle holding the count, then its caption; the same block at lines 57-72 and 74-89 |
| Constants.DashboardHtml | client/src/components/chat-page/constants.ts:29-90 | definition: the container with the three tiles, each a circle holding its count and then its caption |
| Constants.DashboardGaps | client/src/components/chat-page/constants.ts:29-90 | definition: the fixed text before, between and after the three counts, for given colours |
| Constants.DashboardHtmlShape | client/src/components/chat-page/constants.ts:29-90 | whatever the counts, the dashboard is the gaps with the counts in between: a count never changes the text around it |
| Constants.DashboardCountsInOrder | client/src/components/chat-page/constants.ts:29-90 | an object's dashboard is a fixed text that depends only on the mode's colours, with active_deals, less_than_2_days_deals and closed_deals filled in at three places, in that order |
| Constants.DashboardDependsOnlyOnDarkness | client/src/components/chat-page/constants.ts:22-27 | two modes that agree on being "dark" give the same dashboard |
| Constants.HeaderCell | client/src/components/chat-page/constants.ts:114 | definition: one `<th>` cell holding a column name |
| Constants.HeaderCells | client/src/components/chat-page/constants.ts:99-115 | definition: `columns.map(...).join("")`, one header cell per column in order |
| Constants.StatusTable | client/src/components/chat-page/constants.ts:94-142 | definition: the status table of the input, None when it throws |
| Constants.StatusRow | client/src/components/chat-page/constants.ts:122-134 | definition: one row's `<tr>`: its ID cell and the seven coloured cells, None when it throws |
| Constants.StatusRows | client/src/components/chat-page/constants.ts:122-134 | definition: the rows' `<tr>`s in input order, None when one row throws |
| Constants.StatusInputRows | client/src/components/chat-page/constants.ts:96 | the rows are `input.data` when truthy, else the input itself; undefined or null input throws |
| Constants.StatusCell | client/src/components/chat-page/constants.ts:130 | definition: one `<td>` whose background is the given colour |
| Constants.CellColour | client/src/components/chat-page/constants.ts:129 | definition: `row.values[i] \|\| ""` |
| Constants.StatusCells | client/src/components/chat-page/constants.ts:126-132 | the cells throw exactly when `row.values` is undefined or null and there is a column |
| Constants.StatusCellsStep | client/src/components/chat-page/constants.ts:126-132 | helper: one more column appends that column's coloured cell, or throws when the values are undefined or null |
| Constants.ColouredCells | client/src/components/chat-page/constants.ts:126-132 | there are n cells and cell i is coloured by `values[i] \|\| ""` |
| Constants.RenderStatusRow | client/src/components/chat-page/constants.ts:122-134 | the row loop builds exactly the row the row function describes |
| Constants.GenerateStatusTable | client/src/components/chat-page/constants.ts:94-142 | the forEach builds exactly the table the table function describes, and throws when a row throws |
| Constants.StatusRowShape | client/src/components/chat-page/constants.ts:123-133 | a row is its ID cell and then exactly seven cells, cell i coloured by `values[i] \|\| ""` |
| Constants.StatusCellsShape | client/src/components/chat-page/constants.ts:126-132 | the cells are the n coloured cells joined in index order |
| Constants.StatusRowsSucceedIff | client/src/components/chat-page/constants.ts:122-134 | the body exists exactly when no row throws |
| Constants.RenderStatusRows | client/src/components/chat-page/constants.ts:122-134 | the row loop builds exactly the body the rows function describes, or throws when a row throws |
| Constants.StatusRowsStep | client/src/components/chat-page/constants.ts:122-134 | helper: one more row appends that row's `<tr>`, or throws when it throws |
| Constants.StatusRowsInOrder | client/src/components/chat-page/constants.ts:122-134 | the body is one row per input row, in input order |
| Constants.StatusTableFrame | client/src/components/chat-page/constants.ts:110-138 | the table starts with the fixed header and ends with the closing `</tbody></table>` |
| ChatInput.ShouldSend | client/src/components/chat-page/ChatInput.tsx:33 | definition: the send guard `message.trim() \|\| selectedFiles.length > 0` |
| ChatInput.ShouldSendIff | client/src/components/chat-page/ChatInput.tsx:33 | a message is sent exactly when it has a non-whitespace character or files are selected |
| ChatInput.WithoutIndex | client/src/components/chat-page/ChatInput.tsx:56 | definition: `prev.filter((_, i) => i !== index)` |
| ChatInput.WithoutIndexDeletesOne | client/src/components/chat-page/ChatInput.tsx:55-57 | removing file i deletes exactly that file when i is in range and nothing otherwise |
| ChatInput.QuickCommand | client/src/components/chat-page/ChatInput.tsx:176-197 | button 0 sends "@Show Home List", button 1 "@Show Dashboard" and button 2 "@Show Status Bar", each without files |
| ChatInput.ChatInputBox.constructor | client/src/components/chat-page/ChatInput.tsx:27-28 | the box starts empty with no files |
| ChatInput.ChatInputBox.SetMessage | client/src/components/chat-page/ChatInput.tsx:78 | typing replaces the text and keeps the files |
| ChatInput.ChatInputBox.HandleSend | client/src/components/chat-page/ChatInput.tsx:32-39 | when there is something to send, the text and files are sent and both cleared; otherwise nothing is sent or changed |
| ChatInput.ChatInputBox.ClickSend | client/src/components/chat-page/ChatInput.tsx:149-150 | while loading the disabled button sends nothing and changes nothing |
| ChatInput.ChatInputBox.HandleKeyDown | client/src/components/chat-page/ChatInput.tsx:41-46 | Enter without Shift sends; any other key sends nothing |
| ChatInput.ChatInputBox.HandleFileChange | client/src/components/chat-page/ChatInput.tsx:48-53 | a non-empty choice is appended to the selected files; anything else changes nothing |
| ChatInput.ChatInputBox.HandleFileRemove | client/src/components/chat-page/ChatInput.tsx:55-57 | removing a file filters out that index and keeps the text |
| ChatMessage.Extension | client/src/components/chat-page/ChatMessage.tsx:29 | definition: the last piece of the name split on ".", lower-cased |
| ChatMessage.IsImageFile | client/src/components/chat-page/ChatMessage.tsx:27-31 | definition: the extension is non-empty and one of the seven image extensions |
| ChatMessage.SplitOn | client/src/components/chat-page/ChatMessage.tsx:29 | `split(".")` yields at least one piece |
| ChatMessage.Lower | client/src/components/chat-page/ChatMessage.tsx:29 | lower-casing keeps the length and lowers each character |
| ChatMessage.LastPieceIsAfterLastDot | client/src/components/chat-page/ChatMessage.tsx:29 | the extension is the longest dot-free suffix of the name |
| ChatMessage.AfterLastDotStep | client/src/components/chat-page/ChatMessage.tsx:29 | helper: appending a dot starts an empty extension; appending anything else extends it |
| ChatMessage.SplitOnLower | client/src/components/chat-page/ChatMessage.tsx:29 | lower-casing then taking the extension is taking it then lower-casing |
| ChatMessage.IsImageFileIgnoresCase | client/src/components/chat-page/ChatMessage.tsx:27-31 | names equal up to case are both images or both not |
| ChatMessage.LowerIdempotent | client/src/components/chat-page/ChatMessage.tsx:29 | lower-casing twice is lower-casing once |
| ChatMessage.TrailingDotIsNotImage | client/src/components/chat-page/ChatMessage.tsx:27-31 | a name ending with "." is never an image |
| ChatMessage.LastPieceAfterDot | client/src/components/chat-page/ChatMessage.tsx:29 | the extension of stem + "." + ext is ext when ext has no dot |
| ChatMessage.ListedExtensionIsImage | client/src/components/chat-page/ChatMessage.tsx:27-31 | a name whose extension is a listed one in any case is an image |
| ChatMessage.Attachments | client/src/components/chat-page/ChatMessage.tsx:71-98 | rendering throws exactly when both lists are present and non-empty and there are fewer names than urls |
| ChatMessage.AttachmentsShown | client/src/components/chat-page/ChatMessage.tsx:71-98 | attachments show only when both lists are non-empty; one slot per url, showing the url exactly when the name at that index is an image |
| MarkdownComp.StatusColour | client/src/components/chat-page/MarkdownComp.tsx:217-224 | definition: green, orange or red for the three status texts, else the default colour |
| MarkdownComp.StripUnderscore | client/src/components/chat-page/MarkdownComp.tsx:226 | definition: `replace(/^_/, "")` |
| MarkdownComp.RenderCell | client/src/components/chat-page/MarkdownComp.tsx:212-227 | a non-string cell is shown as it is in the default colour |
| MarkdownComp.StatusColours | client/src/components/chat-page/MarkdownComp.tsx:217-224 | a cell is coloured exactly for "_complete" (green), "_pending" (orange) and "_canceled" (red), and shown without its underscore |
| MarkdownComp.StripsAtMostOne | client/src/components/chat-page/MarkdownComp.tsx:226 | only the first leading underscore is removed |
| MarkdownComp.CodeLanguage | client/src/components/chat-page/MarkdownComp.tsx:19 | definition: the capture of `/language-(\w+)/.exec(className \|\| "")` |
| MarkdownComp.LanguageIn | client/src/components/chat-page/MarkdownComp.tsx:19 | definition: the word captured after the first "language-" in the class string |
| MarkdownComp.BlockLanguage | client/src/components/chat-page/MarkdownComp.tsx:18-21 | definition: the language of a highlighted block, None when the code is inline or names no language |
| MarkdownComp.WordRun | client/src/components/chat-page/MarkdownComp.tsx:19 | `\w+` takes the longest run of word characters |
| MarkdownComp.FirstMatch | client/src/components/chat-page/MarkdownComp.tsx:19 | a match of "language-" followed by a word character fits in the class name |
| MarkdownComp.FirstMatchIsLeftmost | client/src/components/chat-page/MarkdownComp.tsx:19 | the match found is the leftmost one, and none is found only when there is none |
| MarkdownComp.LanguageInIsLeftmostWord | client/src/components/chat-page/MarkdownComp.tsx:19 | the language in a class string is the word after the leftmost "language-", and there is none exactly when no position matches |
| MarkdownComp.LanguageInIsWord | client/src/components/chat-page/MarkdownComp.tsx:19 | a language found in a class string is a non-empty run of word characters |
| MarkdownComp.InlineIsNeverBlock | client/src/components/chat-page/MarkdownComp.tsx:18-21 | inline code is never rendered as a highlighted block |
| Js.Trim | client/src/components/chat-page/ChatInput.tsx:33 | definition: `trim()`, removing ECMAScript whitespace at both ends |
| Js.ParseInt | client/src/components/chat-page/SCODocumentEditForm.tsx:129 | definition: `parseInt` of a string: optional whitespace and sign, then the leading decimal digits, or the hex digits after "0x"; None is NaN |
| Js.TrimEmptyIffAllWhitespace | client/src/components/chat-page/ChatInput.tsx:33 | `trim()` is empty exactly when every character is whitespace |
| Js.ParseIntOfIntToString | client/src/components/chat-page/SCODocumentEditForm.tsx:267 | `parseInt(String(n))` is n |
| Js.ParseIntUnsigned | client/src/components/chat-page/SCODocumentEditForm.tsx:267 | helper: a string of digits parses to its value |
| Js.ParseIntNegative | client/src/components/chat-page/SCODocumentEditForm.tsx:267 | helper: a minus sign before a string of digits negates its value |
| Js.LooseEqualsNonNumeric | client/src/components/chat-page/page.tsx:139-140 | loose equality with a non-numeric literal holds exactly for that string, or for an array, object or function whose `String(v)` is that string |
| Js.FormatDate | client/src/components/chat-page/TimelineEditForm.tsx:136-144 | `format` throws exactly on an invalid date |
| TimelineForm.Normalise | client/src/components/chat-page/TimelineEditForm.tsx:66-84 | definition: the form the opening effect sets, None when it throws |
| TimelineForm.NormaliseItem | client/src/components/chat-page/TimelineEditForm.tsx:69-77 | a row keeps all its fields and its due date stays a string or becomes `new Date(dueDate)`; a null row throws |
| TimelineForm.NormaliseList | client/src/components/chat-page/TimelineEditForm.tsx:68-78 | the list is normalised element by element, and throws exactly when some element is null or undefined |
| TimelineForm.NormaliseGivesDueDates | client/src/components/chat-page/TimelineEditForm.tsx:66-81 | after opening every row has a string or Date due date, and a missing list becomes [] |
| TimelineForm.NormaliseObject | client/src/components/chat-page/TimelineEditForm.tsx:67-83 | opening with an object keeps its other fields and normalises its list row by row |
| TimelineForm.DateChanged | client/src/components/chat-page/TimelineEditForm.tsx:93-102 | definition: the form after a due date is picked |
| TimelineForm.StatusChanged | client/src/components/chat-page/TimelineEditForm.tsx:104-119 | definition: the form after a status is chosen |
| TimelineForm.CommentChanged | client/src/components/chat-page/TimelineEditForm.tsx:121-128 | definition: the form after a comment is typed |
| TimelineForm.SetCell | client/src/components/chat-page/TimelineEditForm.tsx:95-96 | setting a field of row index changes that field of that row only, and throws when the row does not exist |
| TimelineForm.StatusChangeTouchesOneRow | client/src/components/chat-page/TimelineEditForm.tsx:104-119 | a status change sets that row's status, stamps its close date exactly when the status is "Completed", and leaves the other rows |
| TimelineForm.EditOutOfRangeIsIgnored | client/src/components/chat-page/TimelineEditForm.tsx:93-128 | an edit of a row that does not exist changes nothing |
| TimelineForm.DateAndCommentTouchOneField | client/src/components/chat-page/TimelineEditForm.tsx:93-128 | a picked date and a comment replace exactly that field of that row |
| TimelineForm.DateText | client/src/components/chat-page/TimelineEditForm.tsx:136-144 | a string date is emitted verbatim; a Date or timestamp is formatted; an invalid date or any other value throws |
| TimelineForm.Text | client/src/components/chat-page/TimelineEditForm.tsx:153-155 | escaping throws on anything but a string |
| TimelineForm.CommentText | client/src/components/chat-page/TimelineEditForm.tsx:146 | a falsy comment is "", a string is kept, a Date throws |
| TimelineForm.EscapePipes | client/src/components/chat-page/TimelineEditForm.tsx:153 | definition: every `\|` preceded by a backslash |
| TimelineForm.NewlinesToBr | client/src/components/chat-page/TimelineEditForm.tsx:150 | definition: every newline replaced by `<br>` |
| TimelineForm.EscapeNeverStartsWithPipe | client/src/components/chat-page/TimelineEditForm.tsx:153 | escaped text never starts with a bare pipe |
| TimelineForm.UnescapeEscape | client/src/components/chat-page/TimelineEditForm.tsx:153 | escaping pipes is undone by reading `\|` back as `\|`'s pipe: nothing is lost |
| TimelineForm.EscapedPipesArePreceded | client/src/components/chat-page/TimelineEditForm.tsx:153 | every pipe in escaped text is preceded by a backslash |
| TimelineForm.BrAndEscapeCommute | client/src/components/chat-page/TimelineEditForm.tsx:148-155 | replacing newlines by `<br>` before escaping pipes gives the same text as after |
| TimelineForm.EscapeAppend | client/src/components/chat-page/TimelineEditForm.tsx:153 | escaping distributes over concatenation |
| TimelineForm.BrAppend | client/src/components/chat-page/TimelineEditForm.tsx:150 | the newline rewrite distributes over concatenation |
| TimelineForm.TimelineMarkdown | client/src/components/chat-page/TimelineEditForm.tsx:130-159 | definition: the heading and one line per row, None when a row throws |
| TimelineForm.Cells | client/src/components/chat-page/TimelineEditForm.tsx:137-155 | definition: the six cells of one row, None when a date, the comment or a text cell throws |
| TimelineForm.RowLine | client/src/components/chat-page/TimelineEditForm.tsx:155 | definition: one row's line, text cells and comment escaped, comment newlines as `<br>` |
| TimelineForm.TimelineRow | client/src/components/chat-page/TimelineEditForm.tsx:137-156 | definition: one item's line, None when one of its cells throws |
| TimelineForm.TimelineRows | client/src/components/chat-page/TimelineEditForm.tsx:137-156 | definition: the forEach's lines, first item first, None when any item throws |
| TimelineForm.GenerateMarkdownTable | client/src/components/chat-page/TimelineEditForm.tsx:130-159 | the forEach builds exactly the heading followed by the rows' lines, or throws when a row throws |
| TimelineForm.TimelineRowsSucceedIff | client/src/components/chat-page/TimelineEditForm.tsx:135-156 | the table exists exactly when no row throws |
| TimelineForm.TimelineRowsInOrder | client/src/components/chat-page/TimelineEditForm.tsx:135-156 | the table has exactly one line per row, in list order |
| TimelineForm.RowCellsReadBack | client/src/components/chat-page/TimelineEditForm.tsx:148-155 | the text columns and the comment (with `<br>` for newlines) read back as entered |
| TimelineForm.CellJson | client/src/components/chat-page/TimelineEditForm.tsx:168 | definition: a cell as `JSON.stringify` sees it; a Date goes through the given date-to-JSON function |
| TimelineForm.Payload | client/src/components/chat-page/TimelineEditForm.tsx:165-168 | the payload has marker "TIMELINE" and data holding one list element per row |
| TimelineForm.Submission | client/src/components/chat-page/TimelineEditForm.tsx:161-171 | something is submitted exactly when no row throws, and then the markdown is the table |
| TimelineForm.ParseDate | client/src/components/chat-page/TimelineEditForm.tsx:173-188 | a Date is returned as it is, a string other than "" and "__" is parsed, anything else is null |
| TimelineForm.TimelineEditor.constructor | client/src/components/chat-page/TimelineEditForm.tsx:57-63 | the form starts with the four empty fields and editable_fields [] |
| TimelineForm.TimelineEditor.Initialise | client/src/components/chat-page/TimelineEditForm.tsx:66-91 | the effect sets the normalised data, or keeps the form when it throws |
| TimelineForm.TimelineEditor.HandleDateChange | client/src/components/chat-page/TimelineEditForm.tsx:93-102 | the form becomes the date-changed form |
| TimelineForm.TimelineEditor.HandleStatusChange | client/src/components/chat-page/TimelineEditForm.tsx:104-119 | the form becomes the status-changed form |
| TimelineForm.TimelineEditor.HandleCommentChange | client/src/components/chat-page/TimelineEditForm.tsx:121-128 | the form becomes the comment-changed form |
| TimelineForm.TimelineEditor.HandleSubmit | client/src/components/chat-page/TimelineEditForm.tsx:161-171 | submitting hands over the table and the stringified payload without changing the form |
| DocumentFields.TextChanged | client/src/components/chat-page/RPADocumentEditForm.tsx:87-92 | typing replaces exactly one key and leaves the others |
| DocumentFields.DateChanged | client/src/components/chat-page/SCODocumentEditForm.tsx:104-126 | definition: the form after a date is picked |
| DocumentFields.PickedDate | client/src/components/chat-page/SCODocumentEditForm.tsx:106-119 | a picked date keeps the old days exactly when the old value is an object with a days key, and throws on null |
| DocumentFields.DateChangeTouchesOneKey | client/src/components/chat-page/SCODocumentEditForm.tsx:104-126 | a valid picked date changes that key alone to `{date}` formatted, with `days` exactly when it had one |
| DocumentFields.DateChangeWithoutDate | client/src/components/chat-page/RPADocumentEditForm.tsx:94-116 | a cleared picker or a null old value changes nothing |
| DocumentFields.DaysChanged | client/src/components/chat-page/SCODocumentEditForm.tsx:128-142 | definition: the form after a number of days is typed |
| DocumentFields.DaysChangeIff | client/src/components/chat-page/SCODocumentEditForm.tsx:128-142 | non-numeric days change nothing; a number sets `days` and the date that many days from today on that key only |
| DocumentFields.Detail | client/src/components/chat-page/RPADocumentEditForm.tsx:232 | a missing field is shown as "", a string as it is |
| DocumentFields.DateOf | client/src/components/chat-page/RPADocumentEditForm.tsx:241 | a missing date field is shown as "", an object by its date |
| DocumentFields.LoanDetail | client/src/components/chat-page/RPADocumentEditForm.tsx:238 | "(pct)" follows the amount only when the percentage is truthy |
| DocumentFields.DaysSuffix | client/src/components/chat-page/SCODocumentEditForm.tsx:189 | definition: " (N days)" when the field's days is truthy |
| DocumentFields.Line | client/src/components/chat-page/RPADocumentEditForm.tsx:232-265 | definition: one `\| item \| details \|` line, as every line of SCODocumentEditForm.tsx:149-201 |
| DocumentFields.Lines | client/src/components/chat-page/RPADocumentEditForm.tsx:232-265 | definition: the rows' lines, first row first, as at SCODocumentEditForm.tsx:149-201 |
| DocumentFields.Table | client/src/components/chat-page/RPADocumentEditForm.tsx:227-267 | definition: a summary: its title, the two-column header and one line per row |
| DocumentFields.Items | client/src/components/chat-page/RPADocumentEditForm.tsx:227-267 | the items column of a summary, row by row |
| DocumentFields.Rows | client/src/components/chat-page/RPADocumentEditForm.tsx:227-267 | row i of a summary is item i beside detail i |
| DocumentFields.ItemsOfRows | client/src/components/chat-page/RPADocumentEditForm.tsx:227-267 | helper: the items column of the rows is the items given |
| DocumentFields.LinesInOrder | client/src/components/chat-page/RPADocumentEditForm.tsx:227-267 | a summary has one line per row, in order |
| ScoForm.Wrappable | client/src/components/chat-page/SCODocumentEditForm.tsx:87-88 | definition: a string other than "-" |
| ScoForm.WrapDates | client/src/components/chat-page/SCODocumentEditForm.tsx:85-92 | keys are kept; a listed field holding a string other than "-" becomes `{date: s}`; every other field is unchanged |
| ScoForm.WrapOne | client/src/components/chat-page/SCODocumentEditForm.tsx:85-90 | rewriting one field keeps the keys |
| ScoForm.WrapOneKey | client/src/components/chat-page/SCODocumentEditForm.tsx:85-92 | helper: rewriting one more field agrees with the extended rewrite on every key |
| ScoForm.WrapFields | client/src/components/chat-page/SCODocumentEditForm.tsx:85-92 | the forEach rewrites exactly the listed string fields |
| ScoForm.WrapOneMore | client/src/components/chat-page/SCODocumentEditForm.tsx:85-92 | helper: rewriting one more field in place extends the rewrite by that field |
| ScoForm.Normalise | client/src/components/chat-page/SCODocumentEditForm.tsx:67-95 | definition: the initial data with the ten date fields wrapped |
| ScoForm.NormaliseDates | client/src/components/chat-page/SCODocumentEditForm.tsx:67-95 | the effect's result is the ten date fields wrapped |
| ScoForm.NormaliseIdempotent | client/src/components/chat-page/SCODocumentEditForm.tsx:85-92 | normalising twice is normalising once |
| ScoForm.ScoNumber | client/src/components/chat-page/SCODocumentEditForm.tsx:266-271 | the SCO number is the parsed integer, or 0 when the input is not numeric |
| ScoForm.ScoNumberChanged | client/src/components/chat-page/SCODocumentEditForm.tsx:266-271 | definition: the form with the SCO Number set to the parsed number or 0 |
| ScoForm.ScoNumberRoundTrip | client/src/components/chat-page/SCODocumentEditForm.tsx:266-271 | a typed integer is stored as that number; non-numeric input gives an empty SCO Number cell |
| ScoForm.FormatDateAndDays | client/src/components/chat-page/SCODocumentEditForm.tsx:184-190 | falsy gives "", a string is kept, an object gives its date or "" then " (N days)" when days is truthy |
| ScoForm.BuyerDate | client/src/components/chat-page/SCODocumentEditForm.tsx:156-164 | an object's truthy date, a string as it is, else "" |
| ScoForm.EscrowDate | client/src/components/chat-page/SCODocumentEditForm.tsx:168-180 | as the buyer's date, and a number through `String` |
| ScoForm.HasDate | client/src/components/chat-page/SCODocumentEditForm.tsx:158-160 | definition: `typeof v === "object" && v?.date`, the test repeated at lines 171-173 and 214 |
| ScoForm.ScoDetails | client/src/components/chat-page/SCODocumentEditForm.tsx:149-201 | the details column has exactly 18 entries, one per fixed item |
| ScoForm.ScoRows | client/src/components/chat-page/SCODocumentEditForm.tsx:149-201 | definition: the 18 fixed items paired with their details, one table row each |
| ScoForm.ScoMarkdown | client/src/components/chat-page/SCODocumentEditForm.tsx:144-203 | definition: the SCO summary of the form |
| ScoForm.ScoSummaryItems | client/src/components/chat-page/SCODocumentEditForm.tsx:144-203 | the summary has exactly the 18 fixed items in their fixed order |
| ScoForm.ScoSummaryLayout | client/src/components/chat-page/SCODocumentEditForm.tsx:144-203 | the summary is the title, the header and one line per row |
| ScoForm.ScoRaw | client/src/components/chat-page/SCODocumentEditForm.tsx:206-211 | the raw data is "@@@SCO@@@" followed by exactly the JSON of the form |
| ScoForm.ParseDate | client/src/components/chat-page/SCODocumentEditForm.tsx:213-224 | an object's truthy date or a string other than "" and "-" is parsed; anything else is null |
| ScoForm.WrappedDateParsesAsString | client/src/components/chat-page/SCODocumentEditForm.tsx:213-224 | a wrapped date is read back like the string it came from |
| ScoForm.ScoEditor.constructor | client/src/components/chat-page/SCODocumentEditForm.tsx:65 | the form starts as the initial data |
| ScoForm.ScoEditor.Initialise | client/src/components/chat-page/SCODocumentEditForm.tsx:67-95 | the effect sets the normalised data |
| ScoForm.ScoEditor.HandleTextChange | client/src/components/chat-page/SCODocumentEditForm.tsx:97-102 | the form becomes the text-changed form |
| ScoForm.ScoEditor.HandleDateChange | client/src/components/chat-page/SCODocumentEditForm.tsx:104-126 | the form becomes the date-changed form |
| ScoForm.ScoEditor.HandleDaysChange | client/src/components/chat-page/SCODocumentEditForm.tsx:128-142 | the form becomes the days-changed form |
| ScoForm.ScoEditor.HandleScoNumberChange | client/src/components/chat-page/SCODocumentEditForm.tsx:266-271 | the SCO Number becomes the parsed number or 0 |
| ScoForm.ScoEditor.HandleSubmit | client/src/components/chat-page/SCODocumentEditForm.tsx:206-211 | submitting hands over the summary and the prefixed JSON without changing the form |
| RpaForm.FormatDateAndDays | client/src/components/chat-page/RPADocumentEditForm.tsx:252-257 | falsy gives "", a string gives "", an object gives its date or "" then " (N days)" when days is truthy |
| RpaForm.AppraisalDetail | client/src/components/chat-page/RPADocumentEditForm.tsx:252-261 | the fixed text "No appraisal contigency" is shown exactly when the value `formatDateAndDays` returns is falsy: the field is falsy, or neither its date nor its days is truthy; otherwise the formatted date and days are shown |
| RpaForm.AppraisalGiven | client/src/components/chat-page/RPADocumentEditForm.tsx:252-261 | definition: whether the value `formatDateAndDays` returns is truthy (the field, and its date or its days) |
| RpaForm.FallbackOnlyWhenEmpty | client/src/components/chat-page/RPADocumentEditForm.tsx:252-261 | when the fixed text is shown but the formatted text differs from it, the formatted text is "" |
| RpaForm.ArrayDateShowsEmptyCell | client/src/components/chat-page/RPADocumentEditForm.tsx:252-261 | a date that is an empty array is truthy, so the cell shows "" rather than the fixed text |
| RpaForm.StringAppraisalIsNeverShown | client/src/components/chat-page/RPADocumentEditForm.tsx:252-261 | a plain-string appraisal contingency always shows "No appraisal contigency" |
| RpaForm.DatedAppraisalIsShown | client/src/components/chat-page/RPADocumentEditForm.tsx:252-261 | an appraisal contingency with a date shows that date and its days |
| RpaForm.RpaMarkdown | client/src/components/chat-page/RPADocumentEditForm.tsx:227-267 | definition: the purchase-agreement summary of the form |
| RpaForm.RpaDetails | client/src/components/chat-page/RPADocumentEditForm.tsx:232-265 | the details column has exactly 25 entries, one per fixed item |
| RpaForm.RpaRows | client/src/components/chat-page/RPADocumentEditForm.tsx:232-265 | definition: the 25 fixed items paired with their details, one table row each |
| RpaForm.RpaSummaryItems | client/src/components/chat-page/RPADocumentEditForm.tsx:227-267 | the summary has exactly the 25 fixed items in their fixed order |
| RpaForm.RpaSummaryLayout | client/src/components/chat-page/RPADocumentEditForm.tsx:227-267 | the summary is the title, the header and one line per row |
| RpaForm.RpaMissingFields | client/src/components/chat-page/RPADocumentEditForm.tsx:232-261 | in the details column a missing address and a missing signed date show as "", a missing loan amount as " ", a missing appraisal as its fallback text |
| RpaForm.RpaPayload | client/src/components/chat-page/RPADocumentEditForm.tsx:270-279 | the payload is exactly `{data: form, marker: "RPA"}` |
| RpaForm.ParseDate | client/src/components/chat-page/RPADocumentEditForm.tsx:281-288 | null throws; an object's truthy date or a non-empty string is parsed; anything else is null |
| RpaForm.RpaEditor.constructor | client/src/components/chat-page/RPADocumentEditForm.tsx:85 | the form starts as the initial data |
| RpaForm.RpaEditor.HandleTextChange | client/src/components/chat-page/RPADocumentEditForm.tsx:87-92 | the form becomes the text-changed form |
| RpaForm.RpaEditor.HandleDateChange | client/src/components/chat-page/RPADocumentEditForm.tsx:94-116 | the form becomes the date-changed form |
| RpaForm.RpaEditor.HandleDaysChange | client/src/components/chat-page/RPADocumentEditForm.tsx:118-132 | the form becomes the days-changed form |
| RpaForm.RpaEditor.HandleSubmit | client/src/components/chat-page/RPADocumentEditForm.tsx:270-279 | submitting hands over the live summary and the stringified payload without changing the form |
| UserPermissionForm.Reset | client/src/components/chat-page/UserPermissionForm.tsx:42-47 | every entry keeps its fields and permissions and gets email "" |
| UserPermissionForm.EmailChanged | client/src/components/chat-page/UserPermissionForm.tsx:53-57 | only entry index's email changes, and a missing entry throws |
| UserPermissionForm.Without | client/src/components/chat-page/UserPermissionForm.tsx:65-67 | the filter removes every occurrence of the permission and keeps the others |
| UserPermissionForm.WithoutCons | client/src/components/chat-page/UserPermissionForm.tsx:65-67 | helper: the filter drops the head when it is the permission and keeps it otherwise |
| UserPermissionForm.Toggled | client/src/components/chat-page/UserPermissionForm.tsx:64-73 | definition: the permission filtered out when held, appended otherwise |
| UserPermissionForm.PermissionChanged | client/src/components/chat-page/UserPermissionForm.tsx:60-76 | only entry index's permissions change, to the toggled list, and a missing entry throws |
| UserPermissionForm.ToggleFlipsMembership | client/src/components/chat-page/UserPermissionForm.tsx:60-76 | a toggle flips whether the permission is held and no other permission's |
| UserPermissionForm.WithoutAbsent | client/src/components/chat-page/UserPermissionForm.tsx:65-67 | filtering out an absent permission changes nothing |
| UserPermissionForm.WithoutAppend | client/src/components/chat-page/UserPermissionForm.tsx:65-67 | the filter distributes over concatenation |
| UserPermissionForm.WithoutKeepsOrder | client/src/components/chat-page/UserPermissionForm.tsx:65-67 | the other permissions keep their order |
| UserPermissionForm.ToggleTwiceRestores | client/src/components/chat-page/UserPermissionForm.tsx:64-73 | toggling an absent permission twice restores the list |
| UserPermissionForm.ToggleTwiceMovesToEnd | client/src/components/chat-page/UserPermissionForm.tsx:64-73 | toggling a held permission twice moves it, once, to the end |
| UserPermissionForm.EntryLine | client/src/components/chat-page/UserPermissionForm.tsx:84 | definition: one entry's line, its permissions joined by ", " |
| UserPermissionForm.EntryLines | client/src/components/chat-page/UserPermissionForm.tsx:83-85 | definition: the forEach's lines, one per entry, first entry first |
| UserPermissionForm.PermissionMarkdown | client/src/components/chat-page/UserPermissionForm.tsx:79-88 | definition: the two header lines and one line per entry |
| UserPermissionForm.GenerateMarkdownTable | client/src/components/chat-page/UserPermissionForm.tsx:79-88 | the forEach builds exactly the two header lines and the entries' lines |
| UserPermissionForm.EntryLinesInOrder | client/src/components/chat-page/UserPermissionForm.tsx:79-88 | the table has one line per entry, in order, with permissions joined by ", " |
| UserPermissionForm.PermissionEditor.constructor | client/src/components/chat-page/UserPermissionForm.tsx:42-47 | the form opens with the initial entries, emails cleared |
| UserPermissionForm.PermissionEditor.HandleEmailChange | client/src/components/chat-page/UserPermissionForm.tsx:53-57 | the entries become the email-changed entries |
| UserPermissionForm.PermissionEditor.HandlePermissionChange | client/src/components/chat-page/UserPermissionForm.tsx:60-76 | the entries become the toggled entries |
| UserPermissionForm.PermissionEditor.HandleCancel | client/src/components/chat-page/UserPermissionForm.tsx:103-112 | cancel returns to the initial entries with emails cleared |
| UserPermissionForm.PermissionEditor.HandleSubmit | client/src/components/chat-page/UserPermissionForm.tsx:91-100 | submitting hands over the table without changing the entries |

## Left out

**Outside the model.**
- I/O: `fetch`, the response reader, `TextDecoder` (a chunk is its decoded text), `axios`, `console`, scrolling, logout, the theme and all styling and JSX layout. These are the browser and network; the model starts from the text and values they deliver.
- Unseen functions: `JSON.parse`, `JSON.stringify`, `uuidv4`, `URL.createObjectURL`, `new Date`, `Date.now`, the Los Angeles local time and date-fns `format`/`addDays` are parameters. They are library code; their outputs are treated as arbitrary.
- Object key order: records are maps, so the order of keys in stringified JSON is not modelled.
- Numbers are integers: floating-point values, `NaN` and `String` of non-integers are not modelled.
- `toLowerCase` is modelled on ASCII letters only; the extensions compared are ASCII.
- The `memo` comparator of the Markdown component (MarkdownComp.tsx:255-258) is plain string equality, with no behaviour to prove. The 500 ms bubble spinner timer is cosmetic.
- The unused generators `generateMarkdownTable_` and `generateMarkdownTable__` (RPADocumentEditForm.tsx:134-224) are dead code.

**Aliasing.**
- The page mutates the last message object in place (page.tsx:157-159).
- The timeline and permission handlers mutate row objects shared with the previous state.
- The model replaces values instead, so sharing with older snapshots is not captured.

**Narrowed inputs and preconditions.**
- SCO and RPA initial data is taken to be an object (a record); the permission form's entries are taken to have a string email and an array of string permissions, as the dialogs' callers supply.
- ChatPage.ChatApp.HandleFrame: requires a non-empty message list. An update frame on an empty list would throw inside the state updater; the page always holds at least the greeting when streaming.
- ChatPage.ChatApp.NewChat: requires a non-empty message list. On an empty list (a history load of `[]`) the source would store `[undefined]`, which is not modelled.
- ChatPage.ChatApp.LoadMessages: requires a non-empty message list on the branch where the history data is falsy, for the same reason.
- ChatPage.ChatApp.AppendHistory: requires the list to be empty, as `loadMessages` empties it just before the loop.
- ChatPage.ApplyFrame: states only that messages are never removed. The effect of each kind of frame is given by the lemmas listed beside it.
