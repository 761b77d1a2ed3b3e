/** The system instruction handed to the speech model when a session opens:
    a fixed preamble followed by every room of the layout and, under it, one
    line per device giving its name, type and identifier. */
module Instruction {
  import opened Seqs
  import opened Text
  import opened OfficeTypes

  /** The fixed role description that opens every instruction. */
  const Preamble: string :=
    "You are an office assistant. Your role is to control devices like lights and ACs based on user commands. "
    + "CRITICAL: You MUST always respond, transcribe, and communicate ONLY in English. "
    + "Always transcribe the user's speech into English regardless of what language they speak. "
    + "Never use any other language or script under any circumstances. "
    + "Use the provided device list to find the correct device IDs for the user's request. "
    + "You can control multiple devices at once. "
    + "When a command is ambiguous (e.g., \"turn off the light\" when there are multiple), ask clarifying questions. "
    + "Be concise."

  const ListHeading: string := "Here is the list of available devices and their IDs:"

  /** `- <name> (type: <TYPE>, id: <electronics id>)` */
  function DeviceLine(d: Electronics): string {
    "- " + d.electronicsName + " (type: " + TypeName(d.deviceType) + ", id: " + d.electronicsId + ")"
  }

  /** `In the "<room name>":` */
  function RoomHeader(room: Room): string {
    "In the \"" + room.roomName + "\":"
  }

  function DeviceLines(devices: seq<Electronics>): (lines: seq<string>)
    ensures |lines| == |devices|
    ensures forall j :: 0 <= j < |devices| ==> lines[j] == DeviceLine(devices[j])
  {
    seq(|devices|, j requires 0 <= j < |devices| => DeviceLine(devices[j]))
  }

  /** A room's header and its device lines, one per line. */
  function RoomBlock(room: Room): string {
    RoomHeader(room) + "\n" + Join(DeviceLines(room.electronics), "\n")
  }

  function RoomBlocks(layout: OfficeLayout): (blocks: seq<string>)
    ensures |blocks| == |layout|
    ensures forall i :: 0 <= i < |layout| ==> blocks[i] == RoomBlock(layout[i])
  {
    seq(|layout|, i requires 0 <= i < |layout| => RoomBlock(layout[i]))
  }

  /** The room blocks separated by blank lines. */
  function DeviceList(layout: OfficeLayout): string {
    Join(RoomBlocks(layout), "\n\n")
  }

  /** Everything before the device list. */
  const Header: string := Preamble + "\n\n" + ListHeading + "\n"

  /** `createSystemInstruction(layout)`. */
  function CreateSystemInstruction(layout: OfficeLayout): string {
    Header + DeviceList(layout)
  }

  /** The instruction opens with the preamble and goes on past it, so it is
      never the empty string, even for an empty layout: the "device data not
      loaded" guard only holds before the first successful load. */
  lemma InstructionNeverEmpty(layout: OfficeLayout)
    ensures Preamble <= CreateSystemInstruction(layout)
    ensures |CreateSystemInstruction(layout)| > |Preamble|
    ensures CreateSystemInstruction(layout) != ""
  {
  }

  /** With no rooms the device list is empty and the instruction ends with
      the heading line. */
  lemma EmptyLayoutInstruction()
    ensures CreateSystemInstruction([]) == Preamble + "\n\n" + ListHeading + "\n"
  {
    assert DeviceList([]) == "";
  }

  /** Every room's block appears in the device list. */
  lemma RoomInList(layout: OfficeLayout, i: nat)
    requires i < |layout|
    ensures Contains(DeviceList(layout), RoomBlock(layout[i]))
  {
    JoinContainsPart(RoomBlocks(layout), "\n\n", i);
  }

  /** Every device line and the room header appear in the room's block. */
  lemma DeviceInBlock(room: Room, j: nat)
    requires j < |room.electronics|
    ensures Contains(RoomBlock(room), DeviceLine(room.electronics[j]))
    ensures Contains(RoomBlock(room), RoomHeader(room))
  {
    var lines := DeviceLines(room.electronics);
    JoinContainsPart(lines, "\n", j);
    ContainsInRight(RoomHeader(room) + "\n", Join(lines, "\n"), DeviceLine(room.electronics[j]));
    ContainsMiddle("", RoomHeader(room), "\n" + Join(lines, "\n"));
    assert "" + RoomHeader(room) + ("\n" + Join(lines, "\n")) == RoomBlock(room);
  }

  /** Every room's block appears in the instruction. */
  lemma RoomListed(layout: OfficeLayout, i: nat)
    requires i < |layout|
    ensures Contains(CreateSystemInstruction(layout), RoomBlock(layout[i]))
  {
    RoomInList(layout, i);
    ContainsInRight(Header, DeviceList(layout), RoomBlock(layout[i]));
  }

  /** The line of every device of every room occurs somewhere in the
      instruction (as a substring, not necessarily between line breaks), and
      so does the header of its room: the model can look up the identifier
      of any device in the layout. */
  lemma DeviceListed(layout: OfficeLayout, i: nat, j: nat)
    requires i < |layout| && j < |layout[i].electronics|
    ensures Contains(CreateSystemInstruction(layout), DeviceLine(layout[i].electronics[j]))
    ensures Contains(CreateSystemInstruction(layout), RoomHeader(layout[i]))
  {
    RoomListed(layout, i);
    DeviceInBlock(layout[i], j);
    ContainsTrans(CreateSystemInstruction(layout), RoomBlock(layout[i]), DeviceLine(layout[i].electronics[j]));
    ContainsTrans(CreateSystemInstruction(layout), RoomBlock(layout[i]), RoomHeader(layout[i]));
  }

  /** Adding a room to a non-empty layout appends a blank line and that
      room's block to the device list. */
  lemma AppendRoomToList(layout: OfficeLayout, room: Room)
    requires layout != []
    ensures DeviceList(layout + [room]) == DeviceList(layout) + "\n\n" + RoomBlock(room)
  {
    assert RoomBlocks(layout + [room]) == RoomBlocks(layout) + [RoomBlock(room)];
    JoinAppend(RoomBlocks(layout), RoomBlock(room), "\n\n");
  }

  /** Adding a room to a non-empty layout appends a blank line and that
      room's block, leaving the rest of the instruction as it was. */
  lemma AppendRoom(layout: OfficeLayout, room: Room)
    requires layout != []
    ensures CreateSystemInstruction(layout + [room])
         == CreateSystemInstruction(layout) + "\n\n" + RoomBlock(room)
  {
    AppendRoomToList(layout, room);
    AppendAssoc(Header, DeviceList(layout) + "\n\n", RoomBlock(room));
    AppendAssoc(Header, DeviceList(layout), "\n\n");
  }
}
