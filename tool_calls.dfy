/** What the dashboard does with one function call from the speech model: the
    backend requests it issues, in order, and the tool response it sends
    back. The backend is an oracle: its replies to the requests of one call
    are a parameter. */
module ToolCalls {
  import opened Seqs
  import opened Text
  import opened OfficeTypes
  import opened Keys

  /** A function call as the model sends it; `args` is absent when the call
      carries no argument object. */
  datatype FunctionCall = FunctionCall(id: string, name: string, args: Option<map<string, JsonValue>>)

  /** The outcome of a mutating request: an HTTP status, or a rejected
      `fetch` with its error message. */
  datatype MutationReply = Status(code: nat) | Rejected(message: string)

  /** The outcome of `GET /electronics` followed by `.json()`: the device
      list, or the message of whatever was thrown (a rejected fetch, a body
      that is not JSON, a JSON value that is not an array). */
  datatype ListReply = Listed(items: seq<Electronics>) | ListFailed(message: string)

  /** The backend's answers to the requests one call can issue. */
  datatype Replies = Replies(mutation: MutationReply, listing: ListReply, refresh: LayoutReply)

  /** `{ output: ... }` or `{ error: ... }`. */
  datatype ToolResult = Output(text: string) | Error(text: string)

  /** The requests a call issued, in order, and the response it sent, if any. */
  datatype CallOutcome = CallOutcome(requests: seq<Request>, result: Option<ToolResult>)

  const UnexpectedError := "An unexpected error occurred."

  /** The message of the `TypeError` thrown when `toLowerCase` or
      `toUpperCase` is applied to an argument that is not a string. */
  const NotAStringError := "Cannot read properties of undefined (reading 'toLowerCase')"

  const DeviceUpdated := "OK, device state updated."
  const InvalidControlArgs := "Invalid arguments for controlDevice."

  /** `err.message || 'An unexpected error occurred.'` */
  function ErrorText(message: string): (t: string)
    ensures t != ""
    ensures message != "" ==> t == message
  {
    if message == "" then UnexpectedError else message
  }

  /** The message thrown for a non-2xx reply. */
  function BackendError(code: nat): (t: string)
    ensures "Backend error: " <= t
    ensures AllDigits(t[|"Backend error: "|..]) && DecimalValue(t[|"Backend error: "|..]) == code
  {
    var digits := DecimalString(code);
    DecimalRoundTrip(code);
    var t := "Backend error: " + digits;
    assert t[|"Backend error: "|..] == digits;
    t
  }

  /** `args[key]`, `undefined` when there are no arguments or no such key. */
  function Arg(fc: FunctionCall, key: string): Option<JsonValue> {
    if fc.args.Some? && key in fc.args.value then Some(fc.args.value[key]) else None
  }

  /** The argument when it is a string. */
  function StringArg(fc: FunctionCall, key: string): (r: Option<string>)
    ensures r.Some? <==> Arg(fc, key).Some? && Arg(fc, key).value.JString?
    ensures r.Some? ==> Arg(fc, key) == Some(JString(r.value))
  {
    match Arg(fc, key)
    case Some(JString(s)) => Some(s)
    case _ => None
  }

  /** `${v}` for a JSON value: strings as they are, `null` as "null", arrays
      as `Array.prototype.join` shows them (their elements joined by commas),
      anything else by its own rendering. */
  function Render(v: JsonValue): string
    decreases v, 0
  {
    match v
    case JString(s) => s
    case JArray(items) => Join(RenderAll(items), ",")
    case JNull => "null"
    case JOther(r) => r
  }

  /** An array element as `join` shows it: a `null` element is the empty
      string. */
  function RenderElement(v: JsonValue): string
    decreases v, 1
  {
    if v.JNull? then "" else Render(v)
  }

  function RenderAll(items: seq<JsonValue>): (r: seq<string>)
    ensures |r| == |items|
    decreases items, 2
  {
    if items == [] then [] else [RenderElement(items[0])] + RenderAll(items[1..])
  }

  /** Each element of an array is shown on its own: a `null` element as the
      empty string, and any other as its rendering. */
  lemma {:induction false} RenderAllElements(items: seq<JsonValue>)
    ensures forall i :: 0 <= i < |items| ==>
      RenderAll(items)[i] == (if items[i].JNull? then "" else Render(items[i]))
    decreases |items|
  {
    if items != [] {
      RenderAllElements(items[1..]);
      forall i | 0 <= i < |items|
        ensures RenderAll(items)[i] == (if items[i].JNull? then "" else Render(items[i]))
      {
        if i > 0 {
          assert RenderAll(items)[i] == RenderAll(items[1..])[i - 1];
          assert items[i] == items[1..][i - 1];
        }
      }
    }
  }

  /** `${["a", null]}` is "a,": the `null` element leaves nothing between or
      after the commas, while a `null` on its own is "null". */
  lemma NullElementIsEmpty(a: string)
    ensures Render(JArray([JString(a), JNull])) == a + ","
    ensures Render(JNull) == "null"
  {
    var items := [JString(a), JNull];
    assert items[1..] == [JNull];
    assert RenderElement(JString(a)) == a;
    assert RenderAll([JNull]) == [""] + RenderAll([]);
    assert RenderAll(items) == [a, ""];
    assert Join([a, ""], ",") == a + "," + Join([""], ",");
  }

  /** `${arg}` where the argument may be missing (`undefined`). */
  function RenderArg(v: Option<JsonValue>): string {
    if v.Some? then Render(v.value) else "undefined"
  }

  /** An argument read as a string is shown as it is, and a missing one as
      `undefined`. */
  lemma RenderStringArg(fc: FunctionCall, key: string)
    ensures StringArg(fc, key).Some? ==> RenderArg(Arg(fc, key)) == StringArg(fc, key).value
    ensures Arg(fc, key).None? ==> RenderArg(Arg(fc, key)) == "undefined"
  {
  }

  /** Each string of an array renders as itself. */
  lemma {:induction false} RenderAllStrings(ss: seq<string>)
    ensures RenderAll(seq(|ss|, i requires 0 <= i < |ss| => JString(ss[i]))) == ss
    decreases |ss|
  {
    var items := seq(|ss|, i requires 0 <= i < |ss| => JString(ss[i]));
    if ss != [] {
      var tail := seq(|ss| - 1, i requires 0 <= i < |ss| - 1 => JString(ss[1..][i]));
      assert items[1..] == tail;
      RenderAllStrings(ss[1..]);
      assert RenderElement(items[0]) == ss[0];
      assert RenderAll(items) == [ss[0]] + ss[1..];
    }
  }

  /** An array of strings is shown as its elements joined by commas. */
  lemma RenderStrings(ss: seq<string>)
    ensures Render(JArray(seq(|ss|, i requires 0 <= i < |ss| => JString(ss[i])))) == Join(ss, ",")
  {
    RenderAllStrings(ss);
  }

  /** The tail shared by the three mutating tools: a rejected request or a
      non-2xx status becomes an error response; a 2xx status refreshes the
      layout and answers with `success`. */
  function AfterMutation(request: Request, reply: MutationReply, success: string): (o: CallOutcome)
    ensures o.result.Some? && |o.requests| >= 1 && o.requests[0] == request
    ensures o.result.value.Output? <==> reply.Status? && IsOk(reply.code)
    ensures o.result.value.Output? ==> o.requests == [request, GetLayout] && o.result.value.text == success
    ensures reply.Status? && !IsOk(reply.code) ==> o == CallOutcome([request], Some(Error(BackendError(reply.code))))
    ensures reply.Rejected? ==> o == CallOutcome([request], Some(Error(ErrorText(reply.message))))
  {
    match reply
    case Rejected(m) => CallOutcome([request], Some(Error(ErrorText(m))))
    case Status(code) =>
      if IsOk(code) then CallOutcome([request, GetLayout], Some(Output(success)))
      else CallOutcome([request], Some(Error(BackendError(code))))
  }

  // ------------------------------------------------------------ the four tools

  /** `controlDevice`: a non-empty array of ids and a string state. */
  predicate ControlArgsValid(fc: FunctionCall) {
    var ids := Arg(fc, "deviceIds");
    && ids.Some? && ids.value.JArray? && |ids.value.items| > 0
    && StringArg(fc, "state").Some?
  }

  function ControlDevice(fc: FunctionCall, replies: Replies): CallOutcome {
    if ControlArgsValid(fc) then
      var ids := Arg(fc, "deviceIds").value.items;
      var state := StringArg(fc, "state").value;
      AfterMutation(PatchElectronicsState(ids, Upper(state)), replies.mutation, DeviceUpdated)
    else
      CallOutcome([], Some(Error(InvalidControlArgs)))
  }

  /** Invalid arguments are answered without a request; valid ones patch
      the listed devices to the upper-cased state first. */
  lemma ControlDeviceSpec(fc: FunctionCall, replies: Replies)
    ensures var o := ControlDevice(fc, replies);
      && (!ControlArgsValid(fc) <==> o == CallOutcome([], Some(Error(InvalidControlArgs))))
      && (ControlArgsValid(fc) ==>
            |o.requests| >= 1
            && o.requests[0] == PatchElectronicsState(Arg(fc, "deviceIds").value.items, Upper(StringArg(fc, "state").value)))
  {
  }

  function CreateRoom(fc: FunctionCall, replies: Replies): CallOutcome {
    match StringArg(fc, "roomName")
    case None => CallOutcome([], Some(Error(NotAStringError)))
    case Some(name) =>
      AfterMutation(PostRoom(name, GenerateKey(name)), replies.mutation,
                    "Room \"" + name + "\" created successfully.")
  }

  /** A non-string name throws before any request; otherwise the room is
      posted with the key generated from its name. */
  lemma CreateRoomSpec(fc: FunctionCall, replies: Replies)
    ensures var o := CreateRoom(fc, replies);
      && (StringArg(fc, "roomName").None? <==> o == CallOutcome([], Some(Error(NotAStringError))))
      && (StringArg(fc, "roomName").Some? ==>
            var name := StringArg(fc, "roomName").value;
            |o.requests| >= 1 && o.requests[0] == PostRoom(name, GenerateKey(name))
            && o.result.Some?
            && (o.result.value.Output? ==> o.result.value.text == "Room \"" + name + "\" created successfully."))
  {
  }

  function CreateElectronics(fc: FunctionCall, replies: Replies): CallOutcome {
    var name := StringArg(fc, "electronicsName");
    var kind := StringArg(fc, "type");
    if name.None? || kind.None? then CallOutcome([], Some(Error(NotAStringError)))
    else
      AfterMutation(PostElectronics(name.value, GenerateKey(name.value), Upper(kind.value)), replies.mutation,
                    "Electronic \"" + name.value + "\" (" + kind.value + ") created successfully.")
  }

  /** A non-string name or type throws before any request; otherwise the
      device is posted with its generated key and upper-cased type. */
  lemma CreateElectronicsSpec(fc: FunctionCall, replies: Replies)
    ensures var o := CreateElectronics(fc, replies);
      && ((StringArg(fc, "electronicsName").None? || StringArg(fc, "type").None?)
            <==> o == CallOutcome([], Some(Error(NotAStringError))))
      && (StringArg(fc, "electronicsName").Some? && StringArg(fc, "type").Some? ==>
            var name := StringArg(fc, "electronicsName").value;
            var kind := StringArg(fc, "type").value;
            |o.requests| >= 1 && o.requests[0] == PostElectronics(name, GenerateKey(name), Upper(kind))
            && o.result.Some?
            && (o.result.value.Output? ==>
                  o.result.value.text == "Electronic \"" + name + "\" (" + kind + ") created successfully."))
  {
  }

  /** Two names are equal ignoring ASCII case. */
  predicate SameName(a: string, b: string) {
    Lower(a) == Lower(b)
  }

  /** The index of the first room whose name matches, ignoring case. */
  function FindRoom(layout: OfficeLayout, name: string): (r: Option<nat>)
    ensures r.Some? ==> r.value < |layout| && SameName(layout[r.value].roomName, name)
    ensures r.Some? ==> forall i :: 0 <= i < r.value ==> !SameName(layout[i].roomName, name)
    ensures r.None? ==> forall i :: 0 <= i < |layout| ==> !SameName(layout[i].roomName, name)
  {
    FirstIndex(layout, (room: Room) => SameName(room.roomName, name))
  }

  /** The index of the first device whose name matches, ignoring case. */
  function FindElectronics(items: seq<Electronics>, name: string): (r: Option<nat>)
    ensures r.Some? ==> r.value < |items| && SameName(items[r.value].electronicsName, name)
    ensures r.Some? ==> forall i :: 0 <= i < r.value ==> !SameName(items[i].electronicsName, name)
    ensures r.None? ==> forall i :: 0 <= i < |items| ==> !SameName(items[i].electronicsName, name)
  {
    FirstIndex(items, (e: Electronics) => SameName(e.electronicsName, name))
  }

  /** `officeLayout.find(...)`: the callback runs only on a non-empty layout,
      so a missing or non-string name fails only there. */
  function RoomLookup(fc: FunctionCall, layout: OfficeLayout): Option<nat> {
    match StringArg(fc, "roomName")
    case Some(name) => FindRoom(layout, name)
    case None => None
  }

  function ElectronicsLookup(fc: FunctionCall, items: seq<Electronics>): Option<nat> {
    match StringArg(fc, "electronicsName")
    case Some(name) => FindElectronics(items, name)
    case None => None
  }

  /** `mapElectronicsToRoom`, with the room looked up in `layout`, the
      layout the session captured when it started. */
  function MapElectronicsToRoom(fc: FunctionCall, layout: OfficeLayout, replies: Replies): CallOutcome
  {
    if layout != [] && StringArg(fc, "roomName").None? then
      CallOutcome([], Some(Error(NotAStringError)))
    else
      var room := RoomLookup(fc, layout);
      match replies.listing
      case ListFailed(m) => CallOutcome([GetElectronics], Some(Error(ErrorText(m))))
      case Listed(items) =>
        if items != [] && StringArg(fc, "electronicsName").None? then
          CallOutcome([GetElectronics], Some(Error(NotAStringError)))
        else
          var electronic := ElectronicsLookup(fc, items);
          if room.None? then
            CallOutcome([GetElectronics], Some(Error("Room \"" + RenderArg(Arg(fc, "roomName")) + "\" not found.")))
          else if electronic.None? then
            CallOutcome([GetElectronics], Some(Error("Electronic \"" + RenderArg(Arg(fc, "electronicsName")) + "\" not found.")))
          else
            var roomName := StringArg(fc, "roomName").value;
            var electronicsName := StringArg(fc, "electronicsName").value;
            var post := AfterMutation(
              PostMapping(layout[room.value].roomId, items[electronic.value].electronicsId),
              replies.mutation,
              "\"" + electronicsName + "\" mapped to \"" + roomName + "\" successfully.");
            CallOutcome([GetElectronics] + post.requests, post.result)
  }

  /** The outcome of `mapElectronicsToRoom` on every path: the device list
      is fetched first, a missing room is reported before a missing device,
      and the mapping joins the first matches. */
  lemma MapElectronicsToRoomSpec(fc: FunctionCall, layout: OfficeLayout, replies: Replies)
    ensures var o := MapElectronicsToRoom(fc, layout, replies);
      var listed := replies.listing.Listed?;
      var items := if listed then replies.listing.items else [];
      && o.result.Some?
      && (GetLayout in o.requests <==> o.result.value.Output?)
      && (o.result.value.Output? ==> o.requests[|o.requests| - 1] == GetLayout)
      // a non-string room name on a non-empty layout throws before any request
      && (layout != [] && StringArg(fc, "roomName").None? ==> o == CallOutcome([], Some(Error(NotAStringError))))
      && (o.requests != [] ==> o.requests[0] == GetElectronics)
      // the mapping is posted exactly when both lookups succeed, and it joins the first matches
      && ((exists k :: 0 <= k < |o.requests| && o.requests[k].PostMapping?)
            <==> listed && RoomLookup(fc, layout).Some? && ElectronicsLookup(fc, items).Some?)
      && (listed && RoomLookup(fc, layout).Some? && ElectronicsLookup(fc, items).Some? ==>
            o.requests[1] == PostMapping(layout[RoomLookup(fc, layout).value].roomId,
                                         items[ElectronicsLookup(fc, items).value].electronicsId))
      // a missing room is reported before the device is looked at
      && (listed && RoomLookup(fc, layout).None?
          && (layout == [] || StringArg(fc, "roomName").Some?)
          && (items == [] || StringArg(fc, "electronicsName").Some?) ==>
            o == CallOutcome([GetElectronics], Some(Error("Room \"" + RenderArg(Arg(fc, "roomName")) + "\" not found."))))
      && (listed && RoomLookup(fc, layout).Some? && ElectronicsLookup(fc, items).None?
          && (items == [] || StringArg(fc, "electronicsName").Some?) ==>
            o == CallOutcome([GetElectronics], Some(Error("Electronic \"" + RenderArg(Arg(fc, "electronicsName")) + "\" not found."))))
  {
    var o := MapElectronicsToRoom(fc, layout, replies);
    if replies.listing.Listed? && RoomLookup(fc, layout).Some? && ElectronicsLookup(fc, replies.listing.items).Some? {
      assert o.requests[1] == PostMapping(layout[RoomLookup(fc, layout).value].roomId,
                                          replies.listing.items[ElectronicsLookup(fc, replies.listing.items).value].electronicsId);
    }
  }

  // ------------------------------------------------------------ dispatch

  /** The names of the declared tools. */
  function DeclaredNames(): (names: seq<string>)
    ensures |names| == |FunctionDeclarations|
  {
    seq(|FunctionDeclarations|, i requires 0 <= i < |FunctionDeclarations| => FunctionDeclarations[i].name)
  }

  /** The dispatcher answers this call. */
  predicate Answered(fc: FunctionCall) {
    fc.args.Some? && fc.name in DeclaredNames()
  }

  /** The `if`/`else if` chain over the four declared names; it has no final
      `else`. */
  function HandleCall(fc: FunctionCall, layout: OfficeLayout, replies: Replies): CallOutcome {
    if fc.args.None? then CallOutcome([], None)
    else if fc.name == ControlDeviceName then ControlDevice(fc, replies)
    else if fc.name == CreateRoomName then CreateRoom(fc, replies)
    else if fc.name == CreateElectronicsName then CreateElectronics(fc, replies)
    else if fc.name == MapElectronicsToRoomName then MapElectronicsToRoom(fc, layout, replies)
    else CallOutcome([], None)
  }

  /** Exactly the calls to a declared tool with arguments get a response;
      the others issue no request. The layout is fetched exactly when the
      response is an output, and it is then the last request. */
  lemma HandleCallSpec(fc: FunctionCall, layout: OfficeLayout, replies: Replies)
    ensures var o := HandleCall(fc, layout, replies);
      && (o.result.Some? <==> Answered(fc))
      && (o.result.None? ==> o.requests == [])
      && (GetLayout in o.requests <==> o.result.Some? && o.result.value.Output?)
      && (o.result.Some? && o.result.value.Output? ==> o.requests[|o.requests| - 1] == GetLayout)
  {
    assert DeclaredNames() == [ControlDeviceName, CreateRoomName, CreateElectronicsName, MapElectronicsToRoomName];
    if fc.args.None? {
    } else if fc.name == ControlDeviceName {
      ControlDeviceSpec(fc, replies);
    } else if fc.name == CreateRoomName {
      CreateRoomSpec(fc, replies);
    } else if fc.name == CreateElectronicsName {
      CreateElectronicsSpec(fc, replies);
    } else if fc.name == MapElectronicsToRoomName {
      MapElectronicsToRoomSpec(fc, layout, replies);
    }
  }

  // ------------------------------------------------------------ properties

  /** A request whose key, if it carries one, is the key of the name sent
      with it, and whose device state, if it carries one, is upper case. */
  predicate Derived(r: Request) {
    && (r.PostRoom? ==> r.roomKey == GenerateKey(r.roomName))
    && (r.PostElectronics? ==> r.electronicsKey == GenerateKey(r.electronicsName))
    && (r.PatchElectronicsState? ==> r.state == Upper(r.state))
  }

  predicate AllDerived(rs: seq<Request>) {
    forall k :: 0 <= k < |rs| ==> Derived(rs[k])
  }

  lemma AfterMutationDerived(request: Request, reply: MutationReply, success: string)
    requires Derived(request)
    ensures AllDerived(AfterMutation(request, reply, success).requests)
  {
  }

  lemma ControlDeviceDerived(fc: FunctionCall, replies: Replies)
    ensures AllDerived(ControlDevice(fc, replies).requests)
  {
    if ControlArgsValid(fc) {
      var state := StringArg(fc, "state").value;
      UpperIdempotent(state);
      AfterMutationDerived(PatchElectronicsState(Arg(fc, "deviceIds").value.items, Upper(state)),
                           replies.mutation, DeviceUpdated);
    }
  }

  lemma MapDerived(fc: FunctionCall, layout: OfficeLayout, replies: Replies)
    ensures AllDerived(MapElectronicsToRoom(fc, layout, replies).requests)
  {
    var o := MapElectronicsToRoom(fc, layout, replies);
    forall k | 0 <= k < |o.requests| ensures Derived(o.requests[k]) {
      assert o.requests[k].GetElectronics? || o.requests[k].PostMapping? || o.requests[k].GetLayout?;
    }
  }

  /** Every request a tool call issues is `Derived`. */
  lemma HandleCallDerived(fc: FunctionCall, layout: OfficeLayout, replies: Replies)
    ensures forall k :: 0 <= k < |HandleCall(fc, layout, replies).requests| ==>
      Derived(HandleCall(fc, layout, replies).requests[k])
  {
    if fc.args.None? {
    } else if fc.name == ControlDeviceName {
      ControlDeviceDerived(fc, replies);
    } else if fc.name == CreateRoomName {
      if StringArg(fc, "roomName").Some? {
        var name := StringArg(fc, "roomName").value;
        AfterMutationDerived(PostRoom(name, GenerateKey(name)), replies.mutation,
                             "Room \"" + name + "\" created successfully.");
      }
    } else if fc.name == CreateElectronicsName {
      var name := StringArg(fc, "electronicsName");
      var kind := StringArg(fc, "type");
      if name.Some? && kind.Some? {
        AfterMutationDerived(PostElectronics(name.value, GenerateKey(name.value), Upper(kind.value)), replies.mutation,
                             "Electronic \"" + name.value + "\" (" + kind.value + ") created successfully.");
      }
    } else if fc.name == MapElectronicsToRoomName {
      MapDerived(fc, layout, replies);
    }
  }

  /** The keys a tool call sends are well-formed and the states it sends
      hold no lower-case letter. */
  lemma RequestsWellFormed(fc: FunctionCall, layout: OfficeLayout, replies: Replies)
    ensures forall r :: r in HandleCall(fc, layout, replies).requests && r.PostRoom? ==> IsKey(r.roomKey)
    ensures forall r :: r in HandleCall(fc, layout, replies).requests && r.PostElectronics? ==> IsKey(r.electronicsKey)
    ensures forall r :: r in HandleCall(fc, layout, replies).requests && r.PatchElectronicsState? ==>
      forall i :: 0 <= i < |r.state| ==> !('a' <= r.state[i] <= 'z')
  {
    var o := HandleCall(fc, layout, replies);
    HandleCallDerived(fc, layout, replies);
    forall r | r in o.requests
      ensures r.PostRoom? ==> IsKey(r.roomKey)
      ensures r.PostElectronics? ==> IsKey(r.electronicsKey)
      ensures r.PatchElectronicsState? ==> forall i :: 0 <= i < |r.state| ==> !('a' <= r.state[i] <= 'z')
    {
      var k :| 0 <= k < |o.requests| && o.requests[k] == r;
      assert Derived(r);
      if r.PostRoom? { GeneratedKeyIsKey(r.roomName); }
      if r.PostElectronics? { GeneratedKeyIsKey(r.electronicsName); }
      if r.PatchElectronicsState? { UpperHasNoLowerLetters(r.state); }
    }
  }

  /** A successful mapping joins the first room and the first device whose
      names match the requested ones, ignoring case. */
  lemma MapJoinsFirstMatches(fc: FunctionCall, layout: OfficeLayout, replies: Replies)
    requires fc.args.Some? && fc.name == MapElectronicsToRoomName
    requires HandleCall(fc, layout, replies).result == Some(Output(HandleCall(fc, layout, replies).result.value.text))
    ensures replies.listing.Listed?
    ensures var items := replies.listing.items;
      exists i, j :: 0 <= i < |layout| && 0 <= j < |items|
        && SameName(layout[i].roomName, StringArg(fc, "roomName").value)
        && (forall i' :: 0 <= i' < i ==> !SameName(layout[i'].roomName, StringArg(fc, "roomName").value))
        && SameName(items[j].electronicsName, StringArg(fc, "electronicsName").value)
        && (forall j' :: 0 <= j' < j ==> !SameName(items[j'].electronicsName, StringArg(fc, "electronicsName").value))
        && HandleCall(fc, layout, replies).requests == [GetElectronics, PostMapping(layout[i].roomId, items[j].electronicsId), GetLayout]
  {
    var o := HandleCall(fc, layout, replies);
    assert o == MapElectronicsToRoom(fc, layout, replies);
    var items := replies.listing.items;
    var i := RoomLookup(fc, layout).value;
    var j := ElectronicsLookup(fc, items).value;
    assert o.requests[1] == PostMapping(layout[i].roomId, items[j].electronicsId);
  }
}
