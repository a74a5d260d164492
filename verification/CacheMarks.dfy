/** Prompt-cache breakpoints through two conversions: DecodeMessagesRequest turns request blocks into IR blocks and marker
    blocks (pkg/codec/anthropic.go), and IRToHubPrompt turns those into hub messages whose Meta lists the marked parts
    (pkg/provider/hublane/convert.go). */
module CacheMarks {
  import opened Common
  import opened JsonValue

  datatype Block =
    | NilBlock
    | Text(text: string)
    | Image(url: string, detail: string)
    | Reasoning(redacted: bool, text: string, signature: string)
    | ToolCall(id: string, name: string, arguments: string)
    | ToolResult(callId: string, name: string, content: string)
    | CacheControl(breakpoint: bool)

  type Meta = map<string, string>

  datatype Message = Message(role: string, blocks: seq<Block>, meta: Meta)

  datatype Part =
    | TextPart(text: string)
    | ImagePart(url: string, detail: string)
    | ReasoningPart(text: string)
    | ToolCallPart(id: string, name: string, arguments: string)

  datatype HubMessage = HubMessage(role: string, content: seq<Part>, meta: Meta)

  datatype Breakpoint = Breakpoint(index: nat, cacheControl: string)

  const META_KEY := "cache_control"

  /** JSON printing and parsing: of a request value, and of the breakpoint list kept in Meta. */
  datatype Printer = Printer(value: Json -> string, list: seq<Breakpoint> -> string, parse: string -> Option<seq<Breakpoint>>)

  ghost predicate Contract(p: Printer) {
    forall bs :: bs != [] ==> p.list(bs) != "" && p.parse(p.list(bs)) == Some(bs)
  }

  // ---------------------------------------------------------------- decoding a request

  // A field read as a string, "" when it is something else.
  function Str(f: Fields, k: string): string {
    if k in f && f[k].String? then f[k].s else ""
  }

  function Field(f: Fields, k: string): Json {
    if k in f then f[k] else Null
  }

  function ImageUrl(source: Json): string {
    if !source.Object? then ""
    else if Str(source.fields, "type") == "base64" then
      "data:" + Str(source.fields, "media_type") + ";base64," + Str(source.fields, "data")
    else if Str(source.fields, "type") == "url" then Str(source.fields, "url")
    else ""
  }

  function ResultText(p: Printer, content: Json): string {
    if content.String? then content.s else if content == Null then "" else p.value(content)
  }

  // The block of a content item, None for one that is not recognized.
  function Decode(p: Printer, item: Json): Option<Block> {
    if !item.Object? then None
    else
      var f := item.fields;
      match Str(f, "type")
      case "text" => Some(Text(Str(f, "text")))
      case "image" => Some(Image(ImageUrl(Field(f, "source")), ""))
      case "thinking" => Some(Reasoning(false, Str(f, "thinking"), Str(f, "signature")))
      case "redacted_thinking" => Some(Reasoning(true, Str(f, "data"), ""))
      case "tool_use" =>
        Some(ToolCall(Str(f, "id"), Str(f, "name"), if Field(f, "input") == Null then "{}" else p.value(f["input"])))
      case "tool_result" => Some(ToolResult(Str(f, "tool_use_id"), "", ResultText(p, Field(f, "content"))))
      case _ => None
  }

  // System content only admits text.
  function DecodeSystem(item: Json): Option<Block> {
    if item.Object? && Str(item.fields, "type") == "text" then Some(Text(Str(item.fields, "text"))) else None
  }

  function DecodeAs(p: Printer, system: bool, item: Json): Option<Block> {
    if system then DecodeSystem(item) else Decode(p, item)
  }

  predicate Cached(item: Json) {
    item.Object? && Field(item.fields, "cache_control") != Null
  }

  // The IR blocks of one item: the block, and a marker after it.
  function ItemBlocks(p: Printer, system: bool, item: Json): seq<Block> {
    match DecodeAs(p, system, item)
    case None => []
    case Some(b) => if Cached(item) then [b, CacheControl(true)] else [b]
  }

  function Blocks(p: Printer, system: bool, items: seq<Json>): seq<Block> {
    if items == [] then [] else Blocks(p, system, DropLast(items)) + ItemBlocks(p, system, Last(items))
  }

  function ContentBlocks(p: Printer, system: bool, content: Json): seq<Block> {
    match content
    case String(s) => if system && s == "" then [] else [Text(s)]
    case Array(items) => Blocks(p, system, items)
    case _ => []
  }

  datatype RequestMessage = RequestMessage(role: string, content: Json)

  datatype Request = Request(system: Json, messages: seq<RequestMessage>)

  // The IR messages of the conversation.
  function Conversation(p: Printer, messages: seq<RequestMessage>): seq<Message> {
    if messages == [] then []
    else Conversation(p, DropLast(messages)) + [Message(Last(messages).role, ContentBlocks(p, false, Last(messages).content), map[])]
  }

  function DecodeRequest(p: Printer, req: Request): seq<Message> {
    SystemMessages(p, req.system) + Conversation(p, req.messages)
  }

  // An empty system prompt makes no message.
  function SystemMessages(p: Printer, content: Json): seq<Message> {
    var blocks := ContentBlocks(p, true, content);
    if blocks == [] then [] else [Message("system", blocks, map[])]
  }

  // The loop over the items of one message.
  method DecodeItems(p: Printer, system: bool, items: seq<Json>) returns (blocks: seq<Block>)
    ensures blocks == Blocks(p, system, items)
  {
    blocks := [];
    var i := 0;
    assert items[..0] == [];
    while i < |items|
      invariant 0 <= i <= |items| && blocks == Blocks(p, system, items[..i])
    {
      assert DropLast(items[..i + 1]) == items[..i];
      ghost var before := blocks;
      var b := DecodeAs(p, system, items[i]);
      if b.Some? {
        blocks := blocks + [b.value];
        if Cached(items[i]) {
          blocks := blocks + [CacheControl(true)];
        }
      }
      assert blocks == before + ItemBlocks(p, system, items[i]);
      i := i + 1;
    }
    assert items[..|items|] == items;
  }

  // ---------------------------------------------------------------- from IR to hub messages

  function Existing(p: Printer, meta: Meta): seq<Breakpoint> {
    if META_KEY !in meta || meta[META_KEY] == "" then []
    else
      match p.parse(meta[META_KEY])
      case None => []
      case Some(bs) => bs
  }

  // markCacheBreakpoint
  function Mark(p: Printer, m: HubMessage): HubMessage {
    if m.content == [] then m
    else m.(meta := m.meta[META_KEY := p.list(Existing(p, m.meta) + [Breakpoint(|m.content| - 1, "ephemeral")])])
  }

  predicate BecomesPart(b: Block) {
    !b.NilBlock? && !b.ToolResult? && !b.CacheControl?
  }

  function PartOf(b: Block): Part
    requires BecomesPart(b)
  {
    match b
    case Text(text) => TextPart(text)
    case Image(url, detail) => ImagePart(url, detail)
    case Reasoning(_, text, _) => ReasoningPart(text)
    case ToolCall(id, name, arguments) => ToolCallPart(id, name, arguments)
  }

  // llmhub's NewToolResultMessage: a message of one part.
  function ToolMessage(b: Block): HubMessage
    requires b.ToolResult?
  {
    HubMessage("tool", [TextPart(b.content)], map["tool_call_id" := b.callId, "name" := b.name])
  }

  /** The variables of IRToHubPrompt's inner loop.  target is the index in out of the tool message a marker annotates, or
      None when it annotates cur. */
  datatype Building = Building(out: seq<HubMessage>, cur: HubMessage, target: Option<nat>)

  predicate TargetOk(s: Building) {
    s.target.Some? ==> s.target.value < |s.out|
  }

  function Place(p: Printer, s: Building, b: Block): (s': Building)
    requires TargetOk(s)
    ensures TargetOk(s')
  {
    match b
    case NilBlock => s
    case CacheControl(breakpoint) =>
      if !breakpoint then s
      else if s.target.Some? then s.(out := s.out[s.target.value := Mark(p, s.out[s.target.value])])
      else s.(cur := Mark(p, s.cur))
    case ToolResult(_, _, _) => s.(out := s.out + [ToolMessage(b)], target := Some(|s.out|))
    case _ => s.(cur := s.cur.(content := s.cur.content + [PartOf(b)]), target := None)
  }

  function PlaceAll(p: Printer, out: seq<HubMessage>, m: Message, blocks: seq<Block>): (s: Building)
    ensures TargetOk(s)
  {
    if blocks == [] then Building(out, HubMessage(m.role, [], m.meta), None)
    else Place(p, PlaceAll(p, out, m, DropLast(blocks)), Last(blocks))
  }

  function ConvertOne(p: Printer, out: seq<HubMessage>, m: Message): seq<HubMessage> {
    var s := PlaceAll(p, out, m, m.blocks);
    if s.cur.content == [] then s.out else s.out + [s.cur]
  }

  function Convert(p: Printer, msgs: seq<Message>): seq<HubMessage> {
    if msgs == [] then [] else ConvertOne(p, Convert(p, DropLast(msgs)), Last(msgs))
  }

  /** IRToHubPrompt. */
  method IRToHubPrompt(p: Printer, msgs: seq<Message>) returns (out: seq<HubMessage>)
    ensures out == Convert(p, msgs)
  {
    out := [];
    var i := 0;
    assert msgs[..0] == [];
    while i < |msgs|
      invariant 0 <= i <= |msgs| && out == Convert(p, msgs[..i])
    {
      assert DropLast(msgs[..i + 1]) == msgs[..i];
      out := ConvertMessage(p, out, msgs[i]);
      i := i + 1;
    }
    assert msgs[..|msgs|] == msgs;
  }

  method ConvertMessage(p: Printer, before: seq<HubMessage>, m: Message) returns (out: seq<HubMessage>)
    ensures out == ConvertOne(p, before, m)
  {
    out := before;
    var cur := HubMessage(m.role, [], m.meta);
    var target: Option<nat> := None;
    var i := 0;
    assert m.blocks[..0] == [];
    while i < |m.blocks|
      invariant 0 <= i <= |m.blocks| && Building(out, cur, target) == PlaceAll(p, before, m, m.blocks[..i])
    {
      assert DropLast(m.blocks[..i + 1]) == m.blocks[..i];
      match m.blocks[i] {
        case NilBlock =>
        case CacheControl(breakpoint) =>
          if breakpoint {
            if target.Some? {
              out := out[target.value := Mark(p, out[target.value])];
            } else {
              cur := Mark(p, cur);
            }
          }
        case ToolResult(_, _, _) =>
          target := Some(|out|);
          out := out + [ToolMessage(m.blocks[i])];
        case _ =>
          cur := cur.(content := cur.content + [PartOf(m.blocks[i])]);
          target := None;
      }
      i := i + 1;
    }
    assert m.blocks[..|m.blocks|] == m.blocks;
    if cur.content != [] {
      out := out + [cur];
    }
  }

  // ---------------------------------------------------------------- what it amounts to

  // A block that becomes a part, and how many breakpoints directly follow it.
  datatype Note = Note(block: Block, marks: nat)

  predicate Carries(b: Block) {
    BecomesPart(b) || b.ToolResult?
  }

  // Each marker counts for the nearest block before it; one with none before it counts for nothing.
  function Notes(blocks: seq<Block>): seq<Note> {
    if blocks == [] then [] else Noted(Notes(DropLast(blocks)), Last(blocks))
  }

  function Noted(before: seq<Note>, b: Block): seq<Note> {
    if Carries(b) then before + [Note(b, 0)]
    else if b == CacheControl(true) && before != [] then Bumped(before)
    else before
  }

  function Repeat(i: nat, n: nat): seq<Breakpoint> {
    if n == 0 then [] else Repeat(i, n - 1) + [Breakpoint(i, "ephemeral")]
  }

  function MetaWith(p: Printer, meta: Meta, marks: seq<Breakpoint>): Meta {
    if marks == [] then meta else meta[META_KEY := p.list(Existing(p, meta) + marks)]
  }

  // The tool results, each its own message.
  function Tools(p: Printer, notes: seq<Note>): seq<HubMessage> {
    if notes == [] then []
    else
      var n := Last(notes);
      Tools(p, DropLast(notes)) +
      if n.block.ToolResult? then [ToolWith(p, n.block, n.marks)] else []
  }

  function ToolWith(p: Printer, b: Block, marks: nat): HubMessage
    requires b.ToolResult?
  {
    ToolMessage(b).(meta := MetaWith(p, ToolMessage(b).meta, Repeat(0, marks)))
  }

  // The other blocks, in one message.
  function Parts(notes: seq<Note>): seq<Part> {
    if notes == [] then []
    else Parts(DropLast(notes)) + if BecomesPart(Last(notes).block) then [PartOf(Last(notes).block)] else []
  }

  function Marks(notes: seq<Note>): seq<Breakpoint> {
    if notes == [] then []
    else
      var n := Last(notes);
      Marks(DropLast(notes)) + if BecomesPart(n.block) then Repeat(|Parts(DropLast(notes))|, n.marks) else []
  }

  function Rest(p: Printer, role: string, meta: Meta, notes: seq<Note>): HubMessage {
    HubMessage(role, Parts(notes), MetaWith(p, meta, Marks(notes)))
  }

  function HubOf(p: Printer, role: string, meta: Meta, notes: seq<Note>): seq<HubMessage> {
    Tools(p, notes) + if Parts(notes) == [] then [] else [Rest(p, role, meta, notes)]
  }

  // ---------------------------------------------------------------- the conversion does that

  lemma {:induction false} ExistingWith(p: Printer, meta: Meta, marks: seq<Breakpoint>)
    requires Contract(p)
    ensures Existing(p, MetaWith(p, meta, marks)) == Existing(p, meta) + marks
  {
    if marks != [] {
      assert p.list(Existing(p, meta) + marks) != "";
    } else {
      assert Existing(p, meta) + marks == Existing(p, meta);
    }
  }

  lemma {:induction false} MarkMore(p: Printer, m: HubMessage, meta: Meta, marks: seq<Breakpoint>)
    requires Contract(p) && m.content != [] && m.meta == MetaWith(p, meta, marks)
    ensures Mark(p, m) == m.(meta := MetaWith(p, meta, marks + [Breakpoint(|m.content| - 1, "ephemeral")]))
  {
    ExistingWith(p, meta, marks);
    AppendAssoc(Existing(p, meta), marks, [Breakpoint(|m.content| - 1, "ephemeral")]);
    if marks != [] {
      assert MetaWith(p, meta, marks)[META_KEY := ""] == meta[META_KEY := ""];
    }
  }

  // Where a marker that comes next would go.
  function TargetOf(p: Printer, out: seq<HubMessage>, notes: seq<Note>): Option<nat> {
    if notes != [] && Last(notes).block.ToolResult? && Tools(p, notes) != [] then Some(|out| + |Tools(p, notes)| - 1) else None
  }

  function Built(p: Printer, out: seq<HubMessage>, m: Message, notes: seq<Note>): Building {
    Building(out + Tools(p, notes), Rest(p, m.role, m.meta, notes), TargetOf(p, out, notes))
  }

  lemma {:induction false} PlaceBlock(p: Printer, out: seq<HubMessage>, m: Message, notes: seq<Note>, b: Block)
    requires Carries(b)
    ensures TargetOk(Built(p, out, m, notes))
    ensures Place(p, Built(p, out, m, notes), b) == Built(p, out, m, notes + [Note(b, 0)])
  {
    var more := notes + [Note(b, 0)];
    assert DropLast(more) == notes && Last(more) == Note(b, 0);
    assert Marks(more) == Marks(notes) + [] == Marks(notes);
    if b.ToolResult? {
      assert Parts(more) == Parts(notes) + [] == Parts(notes);
      AppendAssoc(out, Tools(p, notes), [ToolMessage(b)]);
    } else {
      assert Tools(p, more) == Tools(p, notes) + [] == Tools(p, notes);
    }
  }

  lemma {:induction false} BumpTool(p: Printer, notes: seq<Note>)
    requires notes != [] && Last(notes).block.ToolResult?
    ensures Parts(Bumped(notes)) == Parts(notes) && Marks(Bumped(notes)) == Marks(notes)
    ensures var b, marks := Last(notes).block, Last(notes).marks;
      && Tools(p, notes) == Tools(p, DropLast(notes)) + [ToolWith(p, b, marks)]
      && Tools(p, Bumped(notes)) == Tools(p, DropLast(notes)) + [ToolWith(p, b, marks + 1)]
  {
    var front, last, more := DropLast(notes), Last(notes), Bumped(notes);
    assert DropLast(more) == front && Last(more) == Note(last.block, last.marks + 1);
  }

  lemma {:induction false} PlaceMarkOnTool(p: Printer, out: seq<HubMessage>, m: Message, notes: seq<Note>)
    requires Contract(p) && notes != [] && Last(notes).block.ToolResult?
    ensures TargetOk(Built(p, out, m, notes))
    ensures Place(p, Built(p, out, m, notes), CacheControl(true)) == Built(p, out, m, Bumped(notes))
  {
    var last := Last(notes);
    BumpTool(p, notes);
    MarkTool(p, last.block, last.marks);
    SetLast(out, Tools(p, DropLast(notes)), ToolWith(p, last.block, last.marks), ToolWith(p, last.block, last.marks + 1));
  }

  lemma {:induction false} MarkTool(p: Printer, b: Block, marks: nat)
    requires Contract(p) && b.ToolResult?
    ensures Mark(p, ToolWith(p, b, marks)) == ToolWith(p, b, marks + 1)
  {
    MarkMore(p, ToolWith(p, b, marks), ToolMessage(b).meta, Repeat(0, marks));
    assert Repeat(0, marks) + [Breakpoint(0, "ephemeral")] == Repeat(0, marks + 1);
  }

  lemma {:induction false} SetLast<T>(a: seq<T>, b: seq<T>, x: T, y: T)
    ensures (a + (b + [x]))[|a| + |b|] == x && (a + (b + [x]))[|a| + |b| := y] == a + (b + [y])
  {
  }

  // One more breakpoint on the last block.
  function Bumped(notes: seq<Note>): seq<Note>
    requires notes != []
  {
    DropLast(notes) + [Note(Last(notes).block, Last(notes).marks + 1)]
  }

  lemma {:induction false} BumpPart(p: Printer, notes: seq<Note>)
    requires notes != [] && BecomesPart(Last(notes).block)
    ensures Parts(Bumped(notes)) == Parts(notes) && |Parts(notes)| > 0 && Tools(p, Bumped(notes)) == Tools(p, notes)
    ensures Marks(Bumped(notes)) == Marks(notes) + [Breakpoint(|Parts(notes)| - 1, "ephemeral")]
  {
    var front, last, more := DropLast(notes), Last(notes), Bumped(notes);
    var k := |Parts(front)|;
    assert DropLast(more) == front && Last(more) == Note(last.block, last.marks + 1);
    assert Repeat(k, last.marks) + [Breakpoint(k, "ephemeral")] == Repeat(k, last.marks + 1);
    AppendAssoc(Marks(front), Repeat(k, last.marks), [Breakpoint(k, "ephemeral")]);
  }

  lemma {:induction false} PlaceMarkOnPart(p: Printer, out: seq<HubMessage>, m: Message, notes: seq<Note>)
    requires Contract(p) && notes != [] && BecomesPart(Last(notes).block)
    ensures TargetOk(Built(p, out, m, notes))
    ensures Place(p, Built(p, out, m, notes), CacheControl(true)) == Built(p, out, m, Bumped(notes))
  {
    BumpPart(p, notes);
    MarkMore(p, Rest(p, m.role, m.meta, notes), m.meta, Marks(notes));
  }

  lemma {:induction false} NotesCarry(blocks: seq<Block>)
    ensures forall n :: n in Notes(blocks) ==> Carries(n.block)
    decreases |blocks|
  {
    if blocks != [] {
      NotesCarry(DropLast(blocks));
    }
  }

  lemma {:induction false} PlaceOther(p: Printer, out: seq<HubMessage>, m: Message, notes: seq<Note>, b: Block)
    requires !Carries(b) && (b == CacheControl(true) ==> notes == [])
    ensures TargetOk(Built(p, out, m, notes))
    ensures Place(p, Built(p, out, m, notes), b) == Built(p, out, m, notes)
  {
  }

  lemma {:induction false} PlaceBuilds(p: Printer, out: seq<HubMessage>, m: Message, notes: seq<Note>, b: Block)
    requires Contract(p) && forall n :: n in notes ==> Carries(n.block)
    ensures TargetOk(Built(p, out, m, notes))
    ensures Place(p, Built(p, out, m, notes), b) == Built(p, out, m, Noted(notes, b))
  {
    if Carries(b) {
      PlaceBlock(p, out, m, notes, b);
    } else if b == CacheControl(true) && notes != [] {
      assert Last(notes) in notes;
      if Last(notes).block.ToolResult? {
        PlaceMarkOnTool(p, out, m, notes);
      } else {
        PlaceMarkOnPart(p, out, m, notes);
      }
    } else {
      PlaceOther(p, out, m, notes, b);
    }
  }

  lemma {:induction false} PlaceAllBuilds(p: Printer, out: seq<HubMessage>, m: Message, blocks: seq<Block>)
    requires Contract(p)
    ensures PlaceAll(p, out, m, blocks) == Built(p, out, m, Notes(blocks))
    decreases |blocks|
  {
    if blocks == [] {
      assert out + Tools(p, []) == out;
    } else {
      PlaceAllBuilds(p, out, m, DropLast(blocks));
      NotesCarry(DropLast(blocks));
      PlaceBuilds(p, out, m, Notes(DropLast(blocks)), Last(blocks));
    }
  }

  /** Whatever the blocks of a message, converting it appends its tool results and then its other parts, each marker
      attached to the block it follows. */
  lemma {:induction false} ConvertOneIs(p: Printer, out: seq<HubMessage>, m: Message)
    requires Contract(p)
    ensures ConvertOne(p, out, m) == out + HubOf(p, m.role, m.meta, Notes(m.blocks))
  {
    var notes := Notes(m.blocks);
    PlaceAllBuilds(p, out, m, m.blocks);
    AppendAssoc(out, Tools(p, notes), [Rest(p, m.role, m.meta, notes)]);
    assert out + Tools(p, notes) == out + (Tools(p, notes) + []);
  }

  // ---------------------------------------------------------------- straight from the request

  // The recognized items, each marked when it carries cache_control.
  function ItemNotes(p: Printer, system: bool, items: seq<Json>): seq<Note> {
    if items == [] then []
    else
      var b := DecodeAs(p, system, Last(items));
      ItemNotes(p, system, DropLast(items)) + if b.Some? then [Note(b.value, if Cached(Last(items)) then 1 else 0)] else []
  }

  function ContentNotes(p: Printer, system: bool, content: Json): seq<Note> {
    match content
    case String(s) => if system && s == "" then [] else [Note(Text(s), 0)]
    case Array(items) => ItemNotes(p, system, items)
    case _ => []
  }

  function Direct(p: Printer, messages: seq<RequestMessage>): seq<HubMessage> {
    if messages == [] then []
    else Direct(p, DropLast(messages)) + HubOf(p, Last(messages).role, map[], ContentNotes(p, false, Last(messages).content))
  }

  lemma {:induction false} NotesOfItem(blocks: seq<Block>, b: Block, cached: bool)
    requires Carries(b)
    ensures Notes(blocks + if cached then [b, CacheControl(true)] else [b]) == Notes(blocks) + [Note(b, if cached then 1 else 0)]
  {
    var one := blocks + [b];
    assert DropLast(one) == blocks && Last(one) == b;
    if cached {
      var two := blocks + [b, CacheControl(true)];
      assert DropLast(two) == one && Last(two) == CacheControl(true);
      assert DropLast(Notes(one)) == Notes(blocks);
    }
  }

  lemma {:induction false} DecodedCarries(p: Printer, system: bool, item: Json)
    ensures DecodeAs(p, system, item).Some? ==> Carries(DecodeAs(p, system, item).value)
  {
  }

  lemma {:induction false} NotesOfItems(p: Printer, system: bool, items: seq<Json>)
    ensures Notes(Blocks(p, system, items)) == ItemNotes(p, system, items)
    decreases |items|
  {
    if items != [] {
      var b, front := DecodeAs(p, system, Last(items)), Blocks(p, system, DropLast(items));
      NotesOfItems(p, system, DropLast(items));
      if b.Some? {
        DecodedCarries(p, system, Last(items));
        NotesOfItem(front, b.value, Cached(Last(items)));
      } else {
        assert front + [] == front;
      }
    }
  }

  lemma {:induction false} NotesOfContent(p: Printer, system: bool, content: Json)
    ensures Notes(ContentBlocks(p, system, content)) == ContentNotes(p, system, content)
  {
    match content
    case Array(items) => NotesOfItems(p, system, items);
    case String(s) =>
      assert DropLast([Text(s)]) == [];
    case _ =>
  }

  lemma {:induction false} ConvertAppend(p: Printer, msgs: seq<Message>, m: Message)
    ensures Convert(p, msgs + [m]) == ConvertOne(p, Convert(p, msgs), m)
  {
    assert DropLast(msgs + [m]) == msgs;
  }

  lemma {:induction false} ConvertConversation(p: Printer, before: seq<Message>, messages: seq<RequestMessage>)
    requires Contract(p)
    ensures Convert(p, before + Conversation(p, messages)) == Convert(p, before) + Direct(p, messages)
    decreases |messages|
  {
    if messages == [] {
      assert before + [] == before && Convert(p, before) + [] == Convert(p, before);
    } else {
      var front, last := DropLast(messages), Last(messages);
      var m := Message(last.role, ContentBlocks(p, false, last.content), map[]);
      ConvertConversation(p, before, front);
      AppendAssoc(before, Conversation(p, front), [m]);
      ConvertAppend(p, before + Conversation(p, front), m);
      ConvertOneIs(p, Convert(p, before + Conversation(p, front)), m);
      NotesOfContent(p, false, last.content);
      AppendAssoc(Convert(p, before), Direct(p, front), HubOf(p, last.role, map[], ContentNotes(p, false, last.content)));
    }
  }

  /** Decoding a request and converting the result gives the hub messages read straight off the request: the system
      prompt, then for each message its tool results and its other recognized blocks, a part being listed as a
      breakpoint exactly when its block carries cache_control. */
  lemma {:induction false} MarksSurvive(p: Printer, req: Request)
    requires Contract(p)
    ensures Convert(p, DecodeRequest(p, req))
         == HubOf(p, "system", map[], ContentNotes(p, true, req.system)) + Direct(p, req.messages)
  {
    ConvertSystem(p, req.system);
    ConvertConversation(p, SystemMessages(p, req.system), req.messages);
  }

  lemma {:induction false} ConvertSystem(p: Printer, content: Json)
    requires Contract(p)
    ensures Convert(p, SystemMessages(p, content)) == HubOf(p, "system", map[], ContentNotes(p, true, content))
  {
    var system, notes := SystemMessages(p, content), ContentNotes(p, true, content);
    NotesOfContent(p, true, content);
    if system != [] {
      ConvertAppend(p, [], system[0]);
      assert [] + system == system;
      ConvertOneIs(p, [], system[0]);
      assert [] + HubOf(p, "system", map[], notes) == HubOf(p, "system", map[], notes);
    }
  }

  // ---------------------------------------------------------------- in the words of a request

  // The string under a key, "" when there is none.
  predicate Holds(f: Fields, k: string, s: string) {
    if k in f && f[k].String? then f[k] == String(s) else s == ""
  }

  predicate IsItem(item: Json, kind: string) {
    item.Object? && "type" in item.fields && item.fields["type"] == String(kind)
  }

  // The value under a key is there, and not null.
  predicate Has(f: Fields, k: string) {
    k in f && f[k] != Null
  }

  predicate Marked(item: Json) {
    item.Object? && Has(item.fields, "cache_control")
  }

  // A data URL for a base64 source, the address of a url source, nothing for others.
  ghost predicate IsSource(f: Fields, url: string) {
    if Has(f, "source") && IsItem(f["source"], "base64") then
      exists kind, data :: Holds(f["source"].fields, "media_type", kind) && Holds(f["source"].fields, "data", data)
                           && url == "data:" + kind + ";base64," + data
    else if Has(f, "source") && IsItem(f["source"], "url") then Holds(f["source"].fields, "url", url)
    else url == ""
  }

  // Content items that become a part of the message; a system prompt has only text.
  predicate IsPartItem(system: bool, item: Json) {
    || IsItem(item, "text")
    || (!system && (IsItem(item, "image") || IsItem(item, "thinking") || IsItem(item, "redacted_thinking") || IsItem(item, "tool_use")))
  }

  predicate IsToolItem(system: bool, item: Json) {
    !system && IsItem(item, "tool_result")
  }

  /** The part says what the item says. */
  ghost predicate SaysPart(p: Printer, item: Json, part: Part) {
    && item.Object?
    && match part
       case TextPart(text) => IsItem(item, "text") && Holds(item.fields, "text", text)
       case ImagePart(url, detail) => IsItem(item, "image") && IsSource(item.fields, url) && detail == ""
       case ReasoningPart(text) =>
         || (IsItem(item, "thinking") && Holds(item.fields, "thinking", text))
         || (IsItem(item, "redacted_thinking") && Holds(item.fields, "data", text))
       case ToolCallPart(id, name, arguments) =>
         && IsItem(item, "tool_use") && Holds(item.fields, "id", id) && Holds(item.fields, "name", name)
         && arguments == if Has(item.fields, "input") then p.value(item.fields["input"]) else "{}"
  }

  // The text of a tool result: a string as it is, nothing for none, and anything else printed.
  predicate SaysResult(p: Printer, item: Json, text: string) {
    && item.Object?
    && text == if !Has(item.fields, "content") then ""
               else if item.fields["content"].String? then item.fields["content"].s
               else p.value(item.fields["content"])
  }

  lemma {:induction false} DecodedKind(p: Printer, system: bool, item: Json)
    ensures var b := DecodeAs(p, system, item);
      && (IsPartItem(system, item) <==> b.Some? && BecomesPart(b.value))
      && (IsToolItem(system, item) <==> b.Some? && b.value.ToolResult?)
    ensures Marked(item) <==> Cached(item)
  {
  }

  lemma {:induction false} StrHolds(f: Fields, k: string)
    ensures Holds(f, k, Str(f, k))
  {
  }

  lemma {:induction false} SourceIs(f: Fields)
    ensures IsSource(f, ImageUrl(Field(f, "source")))
  {
    if Has(f, "source") && f["source"].Object? {
      var g := f["source"].fields;
      StrHolds(g, "media_type");
      StrHolds(g, "data");
      StrHolds(g, "url");
      var kind, data := Str(g, "media_type"), Str(g, "data");
      assert Holds(g, "media_type", kind) && Holds(g, "data", data);
    }
  }

  lemma {:induction false} DecodedSays(p: Printer, system: bool, item: Json)
    requires IsPartItem(system, item)
    ensures DecodeAs(p, system, item).Some? && BecomesPart(DecodeAs(p, system, item).value)
    ensures SaysPart(p, item, PartOf(DecodeAs(p, system, item).value))
  {
    DecodedKind(p, system, item);
    StrHolds(item.fields, "text");
    StrHolds(item.fields, "thinking");
    StrHolds(item.fields, "data");
    StrHolds(item.fields, "id");
    StrHolds(item.fields, "name");
    SourceIs(item.fields);
  }

  // The items that become parts of the message itself.
  function PartItems(system: bool, items: seq<Json>): seq<Json> {
    if items == [] then []
    else PartItems(system, DropLast(items)) + if IsPartItem(system, Last(items)) then [Last(items)] else []
  }

  // Part i says what item i says, and is listed, once and in order, exactly when the item carries cache_control.
  ghost predicate Exact(p: Printer, items: seq<Json>, parts: seq<Part>, bs: seq<Breakpoint>) {
    && |parts| == |items|
    && (forall i :: 0 <= i < |items| ==> SaysPart(p, items[i], parts[i]))
    && (forall i :: 0 <= i < |items| ==> (Breakpoint(i, "ephemeral") in bs <==> Marked(items[i])))
    && (forall b :: b in bs ==> b.index < |items| && b.cacheControl == "ephemeral")
    && (forall i, j :: 0 <= i < j < |bs| ==> bs[i].index < bs[j].index)
  }

  lemma {:induction false} ExactNext(p: Printer, items: seq<Json>, parts: seq<Part>, bs: seq<Breakpoint>, item: Json, part: Part)
    requires Exact(p, items, parts, bs) && SaysPart(p, item, part)
    ensures Exact(p, items + [item], parts + [part], bs + if Marked(item) then [Breakpoint(|parts|, "ephemeral")] else [])
  {
    assert Breakpoint(|parts|, "ephemeral") !in bs;
  }

  lemma {:induction false} AppendNote(p: Printer, notes: seq<Note>, b: Block, cached: bool)
    requires Carries(b)
    ensures var more := notes + [Note(b, if cached then 1 else 0)];
      if BecomesPart(b) then
        && Parts(more) == Parts(notes) + [PartOf(b)]
        && Marks(more) == Marks(notes) + if cached then [Breakpoint(|Parts(notes)|, "ephemeral")] else []
      else Parts(more) == Parts(notes) && Marks(more) == Marks(notes)
  {
    var more := notes + [Note(b, if cached then 1 else 0)];
    assert DropLast(more) == notes;
    assert Repeat(|Parts(notes)|, 1) == Repeat(|Parts(notes)|, 0) + [Breakpoint(|Parts(notes)|, "ephemeral")];
  }

  lemma {:induction false} ItemsExact(p: Printer, system: bool, items: seq<Json>)
    ensures var notes := ItemNotes(p, system, items);
      Exact(p, PartItems(system, items), Parts(notes), Marks(notes))
    decreases |items|
  {
    if items != [] {
      var front, item := DropLast(items), Last(items);
      var b, notes, parts := DecodeAs(p, system, item), ItemNotes(p, system, front), PartItems(system, front);
      ItemsExact(p, system, front);
      DecodedKind(p, system, item);
      if b.Some? {
        DecodedCarries(p, system, item);
        AppendNote(p, notes, b.value, Cached(item));
        if BecomesPart(b.value) {
          DecodedSays(p, system, item);
          ExactNext(p, parts, Parts(notes), Marks(notes), item, PartOf(b.value));
        } else {
          assert parts + [] == parts;
        }
      } else {
        assert parts + [] == parts && notes + [] == notes;
      }
    }
  }

  /** Read back from a message's Meta, the listed breakpoints are exactly the parts whose request block carries
      cache_control, each listed once and in order. */
  lemma {:induction false} BreakpointsAreCached(p: Printer, role: string, system: bool, items: seq<Json>)
    requires Contract(p)
    ensures var m := Rest(p, role, map[], ItemNotes(p, system, items));
      Exact(p, PartItems(system, items), m.content, Existing(p, m.meta))
  {
    var marks := Marks(ItemNotes(p, system, items));
    ItemsExact(p, system, items);
    ExistingWith(p, map[], marks);
    assert Existing(p, map[]) + marks == marks;
  }

  // ---------------------------------------------------------------- from the request to Meta

  // The items that become tool messages.
  function ToolItems(system: bool, items: seq<Json>): seq<Json> {
    if items == [] then []
    else ToolItems(system, DropLast(items)) + if IsToolItem(system, Last(items)) then [Last(items)] else []
  }

  // A tool message of one part with the item's call id and result, listed as a breakpoint exactly when the item carries
  // cache_control.
  ghost predicate ToolOk(p: Printer, item: Json, m: HubMessage) {
    && IsItem(item, "tool_result") && m.role == "tool"
    && |m.content| == 1 && m.content[0].TextPart? && SaysResult(p, item, m.content[0].text)
    && "tool_call_id" in m.meta && Holds(item.fields, "tool_use_id", m.meta["tool_call_id"])
    && Existing(p, m.meta) == if Marked(item) then [Breakpoint(0, "ephemeral")] else []
  }

  // The hub messages of one source message: its tool results, then its other parts if it has any.
  ghost predicate MessageOk(p: Printer, role: string, system: bool, items: seq<Json>, out: seq<HubMessage>) {
    var tools, parts := ToolItems(system, items), PartItems(system, items);
    && |out| == |tools| + (if parts == [] then 0 else 1)
    && (forall i :: 0 <= i < |tools| ==> ToolOk(p, tools[i], out[i]))
    && (parts != [] ==> Last(out).role == role && Exact(p, parts, Last(out).content, Existing(p, Last(out).meta)))
  }

  lemma {:induction false} ToolWithOk(p: Printer, system: bool, item: Json)
    requires Contract(p) && DecodeAs(p, system, item).Some? && DecodeAs(p, system, item).value.ToolResult?
    ensures ToolOk(p, item, ToolWith(p, DecodeAs(p, system, item).value, if Cached(item) then 1 else 0))
  {
    var b, k := DecodeAs(p, system, item).value, if Cached(item) then 1 else 0;
    DecodedKind(p, system, item);
    StrHolds(item.fields, "tool_use_id");
    ExistingWith(p, ToolMessage(b).meta, Repeat(0, k));
    assert Existing(p, ToolMessage(b).meta) == [];
    assert Repeat(0, 1) == Repeat(0, 0) + [Breakpoint(0, "ephemeral")];
    assert [] + Repeat(0, k) == Repeat(0, k);
  }

  lemma {:induction false} ToolsOk(p: Printer, system: bool, items: seq<Json>)
    requires Contract(p)
    ensures var tools := ToolItems(system, items); var out := Tools(p, ItemNotes(p, system, items));
      |out| == |tools| && forall i :: 0 <= i < |tools| ==> ToolOk(p, tools[i], out[i])
    decreases |items|
  {
    if items != [] {
      var front, item := DropLast(items), Last(items);
      var b, notes := DecodeAs(p, system, item), ItemNotes(p, system, front);
      ToolsOk(p, system, front);
      DecodedKind(p, system, item);
      if b.Some? {
        var more := notes + [Note(b.value, if Cached(item) then 1 else 0)];
        assert DropLast(more) == notes;
        if b.value.ToolResult? {
          ToolWithOk(p, system, item);
        } else {
          assert Tools(p, more) == Tools(p, notes) + [] == Tools(p, notes);
        }
      } else {
        assert notes + [] == notes;
      }
    }
  }

  lemma {:induction false} HubOfOk(p: Printer, role: string, system: bool, items: seq<Json>)
    requires Contract(p)
    ensures MessageOk(p, role, system, items, HubOf(p, role, map[], ItemNotes(p, system, items)))
  {
    ToolsOk(p, system, items);
    BreakpointsAreCached(p, role, system, items);
    ItemsExact(p, system, items);
  }

  // As MessageOk, for content of any shape.
  ghost predicate ContentOk(p: Printer, role: string, system: bool, content: Json, out: seq<HubMessage>) {
    match content
    case String(s) => out == if system && s == "" then [] else [HubMessage(role, [TextPart(s)], map[])]
    case Array(items) => MessageOk(p, role, system, items, out)
    case _ => out == []
  }

  lemma {:induction false} HubOfContentOk(p: Printer, role: string, system: bool, content: Json)
    requires Contract(p)
    ensures ContentOk(p, role, system, content, HubOf(p, role, map[], ContentNotes(p, system, content)))
  {
    match content
    case Array(items) => HubOfOk(p, role, system, items);
    case String(s) =>
      var one := [Note(Text(s), 0)];
      assert DropLast(one) == [] && Last(one) == Note(Text(s), 0);
      assert Tools(p, one) == Tools(p, []) + [] == [];
      assert Parts(one) == [TextPart(s)] && Marks(one) == [];
    case _ =>
  }

  // out is made of the hub messages of each message in turn.
  ghost predicate ConversationOk(p: Printer, messages: seq<RequestMessage>, out: seq<HubMessage>) {
    if messages == [] then out == []
    else exists k :: 0 <= k <= |out| && ConversationOk(p, DropLast(messages), out[..k])
                     && ContentOk(p, Last(messages).role, false, Last(messages).content, out[k..])
  }

  lemma {:induction false} DirectOk(p: Printer, messages: seq<RequestMessage>)
    requires Contract(p)
    ensures ConversationOk(p, messages, Direct(p, messages))
    decreases |messages|
  {
    if messages != [] {
      var front, last := Direct(p, DropLast(messages)), Last(messages);
      var more := HubOf(p, last.role, map[], ContentNotes(p, false, last.content));
      DirectOk(p, DropLast(messages));
      HubOfContentOk(p, last.role, false, last.content);
      var k := |front|;
      assert (front + more)[..k] == front && (front + more)[k..] == more;
    }
  }

  /** From the request to Meta: converting a decoded request gives the system prompt's messages and then each message's, and
      in every one of them the breakpoints listed are exactly the parts whose block carries cache_control. */
  lemma {:induction false} RequestReachesMeta(p: Printer, req: Request)
    requires Contract(p)
    ensures var out := Convert(p, DecodeRequest(p, req));
      exists k :: 0 <= k <= |out| && ContentOk(p, "system", true, req.system, out[..k]) && ConversationOk(p, req.messages, out[k..])
  {
    var system, rest := HubOf(p, "system", map[], ContentNotes(p, true, req.system)), Direct(p, req.messages);
    MarksSurvive(p, req);
    HubOfContentOk(p, "system", true, req.system);
    DirectOk(p, req.messages);
    var k := |system|;
    assert (system + rest)[..k] == system && (system + rest)[k..] == rest;
  }
}
