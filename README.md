# office-mate voice dashboard — a verified model

The office-mate dashboard lets a user switch the office's lights, ACs and other
devices by voice. It also lets the user administer the rooms and devices and the
mapping between them. This project models the logic of the dashboard and proves
properties of it:

- **Keys** (`generateKey`): the URL-friendly key derived from a room or device name.
  The voice tools and the admin tables use one definition, so a name gets the
  same key whichever screen creates the record.
- **Instruction** (`createSystemInstruction`): the system prompt built from the
  office layout. It is a fixed preamble, then one block per room with one line
  per device.
- **Session** (`handleStartSession`, `handleStopSession`, `onmessage`, `onerror`,
  `onclose`, `onaudioprocess`): the controller of a live voice session. It is a
  class whose fields are the component's refs and state. The speech service,
  the microphone, the audio clock and the backend are oracles: their answers are
  parameters, and what the controller asks of them is recorded, in order, in a
  ghost trace of effects.
- **ToolCalls**: what one function call from the speech model does. This covers
  the backend requests it issues, in order, and the tool response it sends back,
  for `controlDevice`, `createRoom`, `createElectronics` and
  `mapElectronicsToRoom`.
- **Playback**: the audio scheduler. Each chunk starts at the later of the
  cursor and the clock, and the cursor then moves to the chunk's end. Times are
  exact `real`s.
- **ManageOffice**: the administration screen. It has the id→name lookups, the
  filter of unmapped devices, and the add, edit and mapping handlers of the
  three tables, each table a class. The backend's answer to each request is a
  parameter.
- **OfficeTypes**, **Text**, **Seqs**: the records and enums, the declared
  tools, the backend requests, and the JavaScript string operations the code
  relies on (ASCII `toLowerCase`/`toUpperCase`, `trim`, `includes`, `join`,
  decimal rendering).

Where the documented behaviour and the code differ, the model follows the code:

- A start that fails (microphone refused, connection refused) sets the
  classified error status and then calls `handleStopSession`. That overwrites
  the status with "Session ended…". `onerror` does the same to its error
  status. `FailStart`, `OnError` and `Start` state the overwritten status.
- The calls of one message are awaited one after another, in order.
- `controlDevice` sends any string state upper-cased. It does not check for
  ON/OFF.
- `mapElectronicsToRoom` fetches the device list before it checks whether the
  room was found.
- `mapElectronicsToRoom` looks the room up in the layout captured when the
  session was started (`sessionLayout`), not in the current one.
- React's `setState` is treated as an immediate assignment. Each handler runs
  to completion.

## Model

| member | source | states |
|---|---|---|
| Keys.GenerateKey | App.tsx:13-15 | `generateKey`: lower-case, collapse, trim dashes (a definition; its properties are the lemmas below) |
| Keys.Collapse | App.tsx:14 | the first `replace`: runs of `[a-z0-9]` copied, each maximal run of anything else a single `-` (a definition) |
| Keys.TrimDashes | App.tsx:14 | the second `replace`: one `-` dropped at each end (a definition) |
| Keys.GeneratedKeyIsKey | App.tsx:13-15 | every derived key holds only `a-z`, `0-9` and `-`, neither starts nor ends with `-`, and never has two adjacent `-` |
| Keys.KeyIsJoinedWords | App.tsx:13-15 | the key is the maximal runs of `[a-z0-9]` of the lower-cased name, joined by `-` |
| Keys.CollapseIsJoinedWords | App.tsx:14 | the first replacement yields the words joined by `-`, with one `-` in front when the name starts with a separator and one at the end when it ends with one |
| Keys.TrimmedCollapseIsJoinedWords | App.tsx:14 | the second replacement strips exactly those outer dashes |
| Keys.WordsAreRuns | App.tsx:14 | every word of the reference split is a non-empty run of `[a-z0-9]` |
| Keys.WordsOfJoin | App.tsx:13-15 | splitting words joined by `-` gives back the words |
| Keys.GenerateKeyIdempotent | components/ManageOffice.tsx:24-26 | deriving a key from a key changes nothing, so a key typed back in as a name keeps its key |
| Keys.ConferenceRoomKey | App.tsx:13-15 | "Conference Room #1!" becomes "conference-room-1" |
| Keys.WordsCons | App.tsx:14 | a word followed by separators is read off whole, and reading resumes after the separators |
| Keys.LowerKey | App.tsx:14 | lower-casing leaves a key unchanged |
| Instruction.DeviceLine | App.tsx:20 | `- <name> (type: <type>, id: <id>)` (a definition) |
| Instruction.RoomHeader | App.tsx:21 | `In the "<room_name>":` (a definition) |
| Instruction.RoomBlock | App.tsx:20-21 | the header, a line break, and the device lines joined by line breaks (a definition) |
| Instruction.DeviceList | App.tsx:19-22 | the room blocks joined by blank lines (a definition) |
| Instruction.CreateSystemInstruction | App.tsx:18-28 | the fixed preamble, a blank line, the list heading and the device list (a definition; its properties are the lemmas below) |
| Instruction.InstructionNeverEmpty | App.tsx:24-27 | the instruction starts with the fixed preamble and is longer than it, so it is never empty |
| Instruction.EmptyLayoutInstruction | App.tsx:18-28 | an empty layout gives the preamble, a blank line and the list heading only |
| Instruction.RoomInList | App.tsx:19-22 | every room's block occurs in the device list |
| Instruction.DeviceInBlock | App.tsx:20-21 | a room's block holds its `In the "<room_name>":` header and each of its device lines |
| Instruction.RoomListed | App.tsx:18-28 | every room's block occurs in the instruction |
| Instruction.DeviceListed | App.tsx:18-28 | every device line and room header occurs in the instruction |
| Instruction.AppendRoomToList | App.tsx:19-22 | adding a room appends a blank line and its block to the list |
| Instruction.AppendRoom | App.tsx:18-28 | adding a room appends a blank line and its block to the instruction |
| Playback.Cursor | App.tsx:270-272 | the cursor after scheduling a sequence of chunks (a definition; its properties are the lemmas below) |
| Playback.StartTime | App.tsx:270 | a chunk starts at the later of the cursor and the clock |
| Playback.CursorStep | App.tsx:270-272 | scheduling a chunk moves the cursor to its start plus its duration, never backwards, and never before the chunk's arrival plus its duration |
| Playback.CursorIsLastEnd | App.tsx:270-272 | the cursor is the end of the last scheduled chunk |
| Playback.CursorMonotone | App.tsx:270-272 | the cursor never moves backwards as chunks are scheduled |
| Playback.NeverBeforeArrival | App.tsx:270-271 | no chunk starts before it arrives |
| Playback.Gapless | App.tsx:270-272 | a chunk arriving before the previous one ends starts exactly at that end, and otherwise on arrival |
| Playback.NoOverlap | App.tsx:270-272 | no chunk starts before an earlier one ends |
| Seqs.FirstIndex | App.tsx:231 | `find`: the first index whose element satisfies the predicate, or none when no element does |
| Text.TrimStartDropsLeadingSpace | components/ManageOffice.tsx:52 | `trim` drops exactly the leading white space |
| Text.TrimEndDropsTrailingSpace | components/ManageOffice.tsx:52 | `trim` drops exactly the trailing white space |
| Text.TrimEmptyIffBlank | components/ManageOffice.tsx:52 | a name trims to empty exactly when it is made only of white space |
| Text.ContainsIff | App.tsx:316 | `includes` holds exactly when the substring occurs at some position |
| Text.UpperHasNoLowerLetters | App.tsx:195 | an upper-cased state holds no lower-case ASCII letter |
| Text.JoinContainsPart | App.tsx:19-22 | every joined part occurs in the joined string |
| Text.JoinAppend | App.tsx:22 | joining one more part appends the separator and that part |
| Text.DecimalString | App.tsx:197 | the rendered status is a non-empty string of digits without a leading zero |
| Text.DecimalRoundTrip | App.tsx:197 | reading the rendered status back gives the status |
| ToolCalls.ErrorText | App.tsx:254 | the thrown message, or the fallback text when it is empty |
| ToolCalls.BackendError | App.tsx:197 | "Backend error: " followed by digits whose value is the status |
| ToolCalls.StringArg | App.tsx:182 | an argument is read as a string exactly when it is present and a string |
| ToolCalls.AfterMutation | App.tsx:192-199 | the request goes first; a 2xx reply refreshes the layout and answers the success text; a non-2xx reply or a rejection answers the error without refreshing |
| ToolCalls.Render | App.tsx:238-240 | `${value}` in the not-found messages: a string as it is, `null` as "null", an array as `join` shows it (a definition) |
| ToolCalls.RenderElement | App.tsx:238-240 | an array element as `join` shows it: `null` as the empty string (a definition) |
| ToolCalls.RenderAllElements | App.tsx:238-240 | each element of an array is shown on its own, a `null` element as the empty string and any other as its rendering |
| ToolCalls.NullElementIsEmpty | App.tsx:238 | a room name `["a", null]` is shown as `a,`, while a `null` on its own is shown as `null` |
| ToolCalls.RenderArg | App.tsx:238-240 | `${arg}` for an argument that may be missing, which prints `undefined` (a definition) |
| ToolCalls.RenderStringArg | App.tsx:238-240 | an argument read as a string is shown as that string, and a missing argument as `undefined` |
| ToolCalls.RenderStrings | App.tsx:238-240 | an array of strings is shown as its elements joined by commas |
| ToolCalls.ControlDevice | App.tsx:188-202 | the `controlDevice` branch (a definition; its contract is `ControlDeviceSpec`) |
| ToolCalls.CreateRoom | App.tsx:203-214 | the `createRoom` branch (a definition; its contract is `CreateRoomSpec`) |
| ToolCalls.CreateElectronics | App.tsx:215-226 | the `createElectronics` branch (a definition; its contract is `CreateElectronicsSpec`) |
| ToolCalls.MapElectronicsToRoom | App.tsx:227-250 | the `mapElectronicsToRoom` branch (a definition; its contract is `MapElectronicsToRoomSpec`) |
| ToolCalls.HandleCall | App.tsx:182-256 | the handling of one function call, the `try`/`catch` included (a definition; its contract is `HandleCallSpec`) |
| ToolCalls.ControlDeviceSpec | App.tsx:188-202 | invalid arguments are answered without a request; otherwise the devices are patched to the upper-cased state first |
| ToolCalls.CreateRoomSpec | App.tsx:203-214 | a non-string name throws before any request; otherwise the room is posted with its generated key |
| ToolCalls.CreateElectronicsSpec | App.tsx:215-226 | a non-string name or type throws before any request; otherwise the device is posted with its generated key and upper-cased type |
| ToolCalls.FindRoom | App.tsx:231 | the first room whose name matches, ignoring case, or none |
| ToolCalls.FindElectronics | App.tsx:235 | the first device whose name matches, ignoring case, or none |
| ToolCalls.MapElectronicsToRoomSpec | App.tsx:227-250 | the device list is fetched first; a missing room is reported before a missing device; the mapping is posted exactly when both are found, and it joins the first matches |
| ToolCalls.MapJoinsFirstMatches | App.tsx:229-250 | a successful mapping issues exactly the list, the mapping of the first matching room and device, and the refresh |
| ToolCalls.HandleCallSpec | App.tsx:180-256 | exactly the calls to a declared tool with arguments get a response, and the others issue no request; the layout is fetched exactly when the response is an output, and it is then the last request |
| ToolCalls.HandleCallDerived | App.tsx:180-256 | every key sent is the key of the name sent with it, and every state sent is upper case |
| ToolCalls.RequestsWellFormed | App.tsx:192-226 | every key a tool call sends is well-formed, and every state holds no lower-case letter |
| Session.StartGuard | App.tsx:119-129 | starting is refused with the not-loaded status when the instruction is empty, checked first, and with the missing-key status when the key is empty |
| Session.StartErrorMessage | App.tsx:315 | the failure message is never empty |
| Session.ClassifyStartError | App.tsx:315-322 | a refused microphone is recognised before a rejected key; any other message is shown after "Error: " |
| Session.PlainStartError | App.tsx:315-322 | a message with none of the looked-for letters is shown as it is |
| Session.EmptyStartErrorIsUnknown | App.tsx:315 | a failure without a message is shown as "Error: Unknown error" |
| Session.StatusCodeMeansInvalidKey | App.tsx:318 | a 401 or 403 anywhere in the message means a rejected key, unless the microphone was refused |
| Session.NextTranscript | App.tsx:177-179 | the delta is appended, and a completed turn clears the transcript |
| Session.StopEffects | App.tsx:79-108 | the stop releases nothing exactly when nothing is held |
| Session.Refresh | App.tsx:56-65 | `fetchOfficeLayout` on the view: a loaded layout replaces layout and instruction, a failure sets the status (a definition; `ApplyLayout` states it on the controller) |
| Session.BatchEffectsStep | App.tsx:181 | handling one more call appends its effects |
| Session.BatchViewStep | App.tsx:181 | handling one more call refreshes the view when that call fetched the layout |
| Session.CallResponses | App.tsx:183-185 | one call's effects carry its response, if it gets one and the session is set, and no other |
| Session.OneResponsePerAnsweredCall | App.tsx:180-256 | while the session is open, every answered call gets exactly one tool response, in call order, and no other call gets one |
| Session.NoResponseWithoutSession | App.tsx:184 | once the session reference is null, no tool response is sent |
| Session.SessionController.constructor | App.tsx:31-51 | all refs null, flags false, the initial status, an empty layout and instruction |
| Session.SessionController.ApplyLayout | App.tsx:60-65 | a loaded layout replaces the layout and the instruction; a failure only sets the error status |
| Session.SessionController.FetchOfficeLayout | App.tsx:53-69 | `GET /layout` is sent, then its reply is applied |
| Session.SessionController.ReleaseResources | App.tsx:77-111 | each held reference is released, in order, and cleared; the playing sources are stopped with the output context |
| Session.SessionController.ShowStopped | App.tsx:112-115 | no session, nobody speaking, nothing processing, the stop status and empty transcripts |
| Session.SessionController.Stop | App.tsx:75-116 | after a stop everything is released and cleared; a second stop changes nothing |
| Session.SessionController.BeginStart | App.tsx:131-133 | busy, initializing, empty transcripts, and the playback cursor back at 0 |
| Session.SessionController.Acquire | App.tsx:140-158 | the stream is stored, both contexts are created, and the connection is opened with the current instruction |
| Session.SessionController.Establish | App.tsx:288-310 | the session reference is stored only once connected, and then capture starts |
| Session.SessionController.FailStart | App.tsx:313-329 | a failed start releases everything and ends with the stop status |
| Session.SessionController.AbandonStream | App.tsx:323-328 | the granted stream's tracks are stopped before the teardown |
| Session.SessionController.OpenSession | App.tsx:140-310 | contexts, then connection, then capture; a refused connection stops the tracks and tears down |
| Session.SessionController.Launch | App.tsx:131-329 | microphone, contexts, connection and capture are acquired in that order; a refused microphone or a refused connection releases everything |
| Session.SessionController.Start | App.tsx:118-330 | a refused start changes only the status and asks for nothing; otherwise it launches as above |
| Session.SessionController.OnAudioProcess | App.tsx:298-308 | a frame is forwarded only while the session reference is set |
| Session.SessionController.ApplyTranscripts | App.tsx:177-179 | the bot transcript gets the output delta and the user transcript the input delta; a completed turn clears both |
| Session.SessionController.RunToolCall | App.tsx:181-256 | one call's requests and response are recorded, and the view is refreshed when it fetched the layout |
| Session.SessionController.RunToolCalls | App.tsx:180-257 | the calls are handled one after another, in order, against the layout captured at start |
| Session.SessionController.Schedule | App.tsx:263-272 | a chunk gets a fresh source handle, joins the playing set, starts at the later of cursor and clock, and moves the cursor to its end |
| Session.SessionController.PlayAudio | App.tsx:258-273 | audio sets "bot speaking" and, while the output context is open, schedules one source |
| Session.SessionController.HandleContent | App.tsx:180-273 | the calls first, then the audio |
| Session.SessionController.HandleMessage | App.tsx:171-274 | transcripts, then tool calls, then audio, each as stated above |
| Session.SessionController.OnEnded | App.tsx:266-269 | the source leaves the playing set, and "bot speaking" is cleared exactly when the set becomes empty |
| Session.SessionController.OnError | App.tsx:275-279 | the socket error stops the session and ends with the stop status |
| Session.SessionController.OnClose | App.tsx:280-283 | the socket closing stops the session |
| Session.StopThenClose | App.tsx:280-283 | a stop followed by the socket's close leaves the stopped state and asks for nothing more |
| ManageOffice.RoomName | components/ManageOffice.tsx:381 | the name of the first room with that id, or the id when no room has it or that room's name is empty |
| ManageOffice.ElectronicsName | components/ManageOffice.tsx:382 | the name of the first device with that id, or the id when no device has it or that name is empty |
| ManageOffice.Unmapped | components/ManageOffice.tsx:384-386 | the filter keeps at most the devices it is given |
| ManageOffice.UnmappedMembers | components/ManageOffice.tsx:384-386 | a device is listed exactly when it is one of the devices and no mapping names its id |
| ManageOffice.UnmappedAppend | components/ManageOffice.tsx:384-386 | the filter works element by element and keeps the order |
| ManageOffice.UnmappedWithoutMaps | components/ManageOffice.tsx:384-386 | with no mappings every device is listed, in order |
| ManageOffice.MapErrorText | components/ManageOffice.tsx:397-400 | the server's message when it has one, else "Failed to create map"; never empty |
| ManageOffice.RoomsTable.constructor | components/ManageOffice.tsx:31-37 | an empty, closed add form and no row in edit |
| ManageOffice.RoomsTable.Add | components/ManageOffice.tsx:50-61 | a blank name sends nothing and changes nothing; otherwise the untrimmed name is posted with its generated key and, once answered, the form is cleared and closed |
| ManageOffice.RoomsTable.StartEdit | components/ManageOffice.tsx:79-83 | the row's id, name and key are copied into the edit state |
| ManageOffice.RoomsTable.SetEditName | components/ManageOffice.tsx:139 | the name input writes only the edited name |
| ManageOffice.RoomsTable.Edit | components/ManageOffice.tsx:63-71 | the edited name and the copied key are put, and the row leaves edit mode once answered |
| ManageOffice.RoomsTable.Rename | components/ManageOffice.tsx:63-83 | whatever name is typed, the key sent is the one the room already had |
| ManageOffice.BlankName | components/ManageOffice.tsx:52 | `!name.trim()` (a definition; `Text.TrimEmptyIffBlank` states what it means) |
| ManageOffice.ElectronicsTable.constructor | components/ManageOffice.tsx:176-184 | an empty add form with type LIGHT, closed, and no row in edit |
| ManageOffice.ElectronicsTable.Add | components/ManageOffice.tsx:197-208 | a blank name sends nothing and changes nothing; otherwise the untrimmed name is posted with its generated key and type; once answered the name is cleared, the type goes back to LIGHT and the form closes |
| ManageOffice.ElectronicsTable.StartEdit | components/ManageOffice.tsx:226-231 | the row's id, name, key and type are copied into the edit state |
| ManageOffice.ElectronicsTable.SetEditName | components/ManageOffice.tsx:296 | the name input writes only the edited name |
| ManageOffice.ElectronicsTable.SetEditType | components/ManageOffice.tsx:299 | the type selector writes only the edited type |
| ManageOffice.ElectronicsTable.Edit | components/ManageOffice.tsx:210-218 | the edited name and type are put with the copied key |
| ManageOffice.ElectronicsTable.Revise | components/ManageOffice.tsx:210-231 | name and type may change, but the key sent is the one the device already had |
| ManageOffice.RoomMapTable.constructor | components/ManageOffice.tsx:357-362 | no selection, closed form, no error |
| ManageOffice.RoomMapTable.Add | components/ManageOffice.tsx:388-404 | without both selections nothing is sent; a non-2xx reply shows the server's message or the fallback and keeps the selections; a 2xx reply clears the selections and closes the form |

## Left out

- Rendering: the JSX, the Tailwind classes, the icons, the sidebar and view switch, and the presentational components (assistant, control and management panels, device and room cards, dashboard, layout grid).
- The speech SDK, `fetch`, `getUserMedia` and `AudioContext`: they are foreign calls. Of the steps of starting a session, only the microphone request and the connection may fail in the model (see `Session.SessionController.Launch` below). Their answers are parameters (`MicReply`, `ConnectReply`, `LayoutReply`, `Replies`, the admin tables' `resolved` flag and `PostReply`). What is asked of them is recorded as effects or requests. Handles for streams, sessions and sources are numbers.
- Session.SessionController.Launch: does not model a throwing `AudioContext` constructor (App.tsx:145-146), nor a throwing `createMediaStreamSource` or `createScriptProcessor` (App.tsx:296-297), which would reach the catch after the session reference is already stored (App.tsx:288). Contexts are always created and capture always starts once connected, so the model promises a full release only after a refused microphone or a refused connection.
- Session.SessionController.FetchOfficeLayout: the `isLayoutLoading` flag (App.tsx:35, 55, 67), which is only passed to the rendering, is not a field of the model.
- Session.OneResponsePerAnsweredCall: assumes `sendToolResponse` never throws. If it threw inside the `try` (App.tsx:184), the `catch` (App.tsx:252-255) would send a second, error response for the same call; the model gives each call at most one response.
- Console logging, and the errors that `close`, `disconnect` and `stop` may throw, which the code catches and ignores.
- The audio codec (`encode`, `decode`, `decodeAudioData`): a message's audio is the duration of its decoded buffer. A decode that fails is not modelled.
- The float to 16-bit conversion of microphone samples and the PCM blob: a frame is forwarded as the sequence of samples it holds.
- Floating-point time: times and durations are exact `real`s.
- Concurrency: the interleaving of `onmessage`, `onaudioprocess`, `onended` and `stop` across `await` points, and React's batching of state updates. Each handler runs to completion, and a state update takes effect at once.
- The `setupComplete` and `onopen` notifications, which only log.
- The initial layout fetch from `useEffect`: `FetchOfficeLayout` is the operation, and its call at mount is not modelled.
- ToolCalls.CreateRoomSpec: the `TypeError` thrown by `toLowerCase` on a non-string name (App.tsx:206, through `generateKey`) is represented by one fixed message, `NotAStringError`.
- ToolCalls.CreateElectronicsSpec: likewise, the `TypeError` of `toLowerCase` on a non-string name and of `toUpperCase` on a non-string type (App.tsx:218-221) is the fixed message `NotAStringError`.
- ToolCalls.MapElectronicsToRoomSpec: likewise, the `TypeError` of `toLowerCase` on a non-string room or device name during the lookups (App.tsx:231, 235) is the fixed message `NotAStringError`.
- Text.Lower: `toLowerCase` and `toUpperCase` map ASCII letters only; other scripts are left as they are.
- ManageOffice.RoomsTable.Add: the table refetch (`fetchRooms`) and the parent's refresh (`onDataChange`) after a request are not recorded. This holds for every admin handler, including `ElectronicsTable.Add` and `RoomMapTable.Add`.
- `handleDelete` in the three tables, with its `window.confirm`, and the loading flags and list state of `fetchRooms`, `fetchElectronics` and `fetchData`: these are network plumbing, and the deletion is a single confirmed `DELETE`.
- The buttons that toggle an add form open or closed, the add forms' inputs, and the mapping table's selects: the state they write is the model's input.
- The one-line count of active devices in the room card.
- `constants.ts` and `types.ts` are transcribed as datatypes and constants (`OfficeTypes`), without proofs of their own.
