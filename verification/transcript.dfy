/** The stored form of messages: nested blocks to wire blocks, through their printed form, and back. */
module TranscriptCodec {
  import opened Llm
  import S = ResponseStore
  import C = Continuation

  datatype Citation = Citation(start: int, end: int, url: string, title: string)

  datatype Source = Source(kind: string, url: string, mediaType: string, data: string, fileID: string)

  datatype Content =
    | Text(text: string, citations: seq<Citation>)
    | Image(source: Source, alt: string)
    | Document(source: Source, name: string, context: string)
    | ToolCall(id: string, name: string, arguments: string)
    | ToolResult(callID: string, name: string, content: seq<Content>, isError: bool)
    | Reasoning
    | SearchCall
    | Audio

  /** A block as it is marshalled: fields of other kinds stay at their zero values. */
  datatype Wire = Wire(
    kind: string, text: string, citations: seq<Citation>, source: Option<Source>, name: string, context: string,
    id: string, arguments: string, callID: string, content: seq<Wire>, isError: bool)

  const ZERO := Wire("", "", [], None, "", "", "", "", "", [], false)

  datatype Message = Message(role: Role, name: string, content: seq<Content>, metadata: bool)

  datatype WireMessage = WireMessage(role: Role, name: string, content: seq<Wire>)

  // ---------------------------------------------------------------- the codec

  function Marshal(b: Content): Option<Wire> {
    match b
    case Text(text, citations) => Some(ZERO.(kind := "text", text := text, citations := citations))
    case Image(source, _) => Some(ZERO.(kind := "image", source := Some(source)))
    case Document(source, name, context) =>
      Some(ZERO.(kind := "document", source := Some(source), name := name, context := context))
    case ToolCall(id, name, arguments) =>
      Some(ZERO.(kind := "tool_call", id := id, name := name, arguments := arguments))
    case ToolResult(callID, name, content, isError) =>
      (match MarshalAll(content)
       case None => None
       case Some(nested) =>
         Some(ZERO.(kind := "tool_result", callID := callID, name := name, isError := isError, content := nested)))
    case _ => None
  }

  function MarshalAll(content: seq<Content>): Option<seq<Wire>> {
    if content == [] then Some([])
    else
      match (MarshalAll(content[..|content| - 1]), Marshal(content[|content| - 1]))
      case (Some(before), Some(last)) => Some(before + [last])
      case _ => None
  }

  function Unmarshal(w: Wire): Option<Content> {
    if w.kind == "text" then Some(Text(w.text, w.citations))
    else if w.kind == "image" then if w.source.None? then None else Some(Image(w.source.value, ""))
    else if w.kind == "document" then
      if w.source.None? then None else Some(Document(w.source.value, w.name, w.context))
    else if w.kind == "tool_call" then Some(ToolCall(w.id, w.name, w.arguments))
    else if w.kind == "tool_result" then
      match UnmarshalAll(w.content)
      case None => None
      case Some(nested) => Some(ToolResult(w.callID, w.name, nested, w.isError))
    else None
  }

  function UnmarshalAll(content: seq<Wire>): Option<seq<Content>> {
    if content == [] then Some([])
    else
      match (UnmarshalAll(content[..|content| - 1]), Unmarshal(content[|content| - 1]))
      case (Some(before), Some(last)) => Some(before + [last])
      case _ => None
  }

  /** What is read back of a wire block once printed. Its arguments are raw JSON: printing fails if they are
      not valid, and otherwise compacts and escapes them. */
  function Print(json: Json, w: Wire): Option<Wire>
    decreases w
  {
    if w.arguments != "" && !json.isValid(w.arguments) then None
    else
      match PrintAll(json, w.content)
      case None => None
      case Some(content) => Some(w.(content := content, arguments := Compacted(json, w.arguments)))
  }

  function PrintAll(json: Json, content: seq<Wire>): Option<seq<Wire>>
    decreases content
  {
    if content == [] then Some([])
    else
      match (PrintAll(json, content[..|content| - 1]), Print(json, content[|content| - 1]))
      case (Some(before), Some(last)) => Some(before + [last])
      case _ => None
  }

  /** Empty arguments are left out of the printed form. */
  function Compacted(json: Json, arguments: string): string {
    if arguments == "" then "" else json.compact(arguments)
  }

  function MarshalContent(json: Json, content: seq<Content>): Option<seq<Wire>> {
    match MarshalAll(content)
    case None => None
    case Some(wire) => PrintAll(json, wire)
  }

  function MarshalMessages(json: Json, messages: seq<Message>): Option<seq<WireMessage>> {
    if messages == [] then Some([])
    else
      var last := messages[|messages| - 1];
      match (MarshalMessages(json, messages[..|messages| - 1]), MarshalContent(json, last.content))
      case (Some(before), Some(content)) =>
        if last.metadata then None else Some(before + [WireMessage(last.role, last.name, content)])
      case _ => None
  }

  function UnmarshalMessages(wire: seq<WireMessage>): Option<seq<Message>> {
    if wire == [] then Some([])
    else
      var last := wire[|wire| - 1];
      match (UnmarshalMessages(wire[..|wire| - 1]), UnmarshalAll(last.content))
      case (Some(before), Some(content)) => Some(before + [Message(last.role, last.name, content, false)])
      case _ => None
  }

  lemma {:induction false} UnmarshalledStands(content: seq<Content>, k: nat)
    requires k < |content| && Marshal(content[k]).None?
    ensures MarshalAll(content).None?
  {
    if k < |content| - 1 {
      UnmarshalledStands(content[..|content| - 1], k);
    }
  }

  lemma {:induction false} UnreadableStands(content: seq<Wire>, k: nat)
    requires k < |content| && Unmarshal(content[k]).None?
    ensures UnmarshalAll(content).None?
  {
    if k < |content| - 1 {
      UnreadableStands(content[..|content| - 1], k);
    }
  }

  method MarshalBlock(b: Content) returns (wire: Option<Wire>)
    ensures wire == Marshal(b)
    decreases b
  {
    match b
    case Text(text, citations) => wire := Some(ZERO.(kind := "text", text := text, citations := citations));
    case Image(source, _) => wire := Some(ZERO.(kind := "image", source := Some(source)));
    case Document(source, name, context) =>
      wire := Some(ZERO.(kind := "document", source := Some(source), name := name, context := context));
    case ToolCall(id, name, arguments) =>
      wire := Some(ZERO.(kind := "tool_call", id := id, name := name, arguments := arguments));
    case ToolResult(callID, name, content, isError) =>
      var nested: seq<Wire> := [];
      for k := 0 to |content|
        invariant MarshalAll(content[..k]) == Some(nested)
      {
        assert content[..k + 1][..k] == content[..k];
        var one := MarshalBlock(content[k]);
        if one.None? {
          UnmarshalledStands(content, k);
          return None;
        }
        nested := nested + [one.value];
      }
      assert content[..|content|] == content;
      wire := Some(ZERO.(kind := "tool_result", callID := callID, name := name, isError := isError, content := nested));
    case _ => wire := None;
  }

  method UnmarshalBlock(w: Wire) returns (block: Option<Content>)
    ensures block == Unmarshal(w)
    decreases w
  {
    if w.kind == "text" { return Some(Text(w.text, w.citations)); }
    if w.kind == "image" { return if w.source.None? then None else Some(Image(w.source.value, "")); }
    if w.kind == "document" {
      return if w.source.None? then None else Some(Document(w.source.value, w.name, w.context));
    }
    if w.kind == "tool_call" { return Some(ToolCall(w.id, w.name, w.arguments)); }
    if w.kind != "tool_result" { return None; }
    var nested: seq<Content> := [];
    for k := 0 to |w.content|
      invariant UnmarshalAll(w.content[..k]) == Some(nested)
    {
      assert w.content[..k + 1][..k] == w.content[..k];
      var one := UnmarshalBlock(w.content[k]);
      if one.None? {
        UnreadableStands(w.content, k);
        return None;
      }
      nested := nested + [one.value];
    }
    assert w.content[..|w.content|] == w.content;
    return Some(ToolResult(w.callID, w.name, nested, w.isError));
  }

  // ---------------------------------------------------------------- what survives

  /** Only these kinds have a stored form, however deep they are nested. */
  predicate Storable(b: Content) {
    match b
    case Reasoning => false
    case SearchCall => false
    case Audio => false
    case ToolResult(_, _, content, _) => forall k :: 0 <= k < |content| ==> Storable(content[k])
    case _ => true
  }

  /** All arguments, however deep they are nested, are empty or valid JSON. */
  predicate Parses(json: Json, b: Content) {
    match b
    case ToolCall(_, _, arguments) => arguments != "" ==> json.isValid(arguments)
    case ToolResult(_, _, content, _) => forall k :: 0 <= k < |content| ==> Parses(json, content[k])
    case _ => true
  }

  /** Printing changes nothing: arguments are compact already, and no image has an alternative text, for
      which the stored form has no place. */
  predicate Exact(json: Json, b: Content) {
    match b
    case Image(_, alt) => alt == ""
    case ToolCall(_, _, arguments) => arguments != "" ==> json.compact(arguments) == arguments
    case ToolResult(_, _, content, _) => forall k :: 0 <= k < |content| ==> Exact(json, content[k])
    case _ => true
  }

  /** The block without alternative texts, and with its arguments compacted. */
  function Reduced(json: Json, b: Content): Content
    decreases b
  {
    match b
    case Image(source, _) => Image(source, "")
    case ToolCall(id, name, arguments) => ToolCall(id, name, if arguments == "" then "" else json.compact(arguments))
    case ToolResult(callID, name, content, isError) => ToolResult(callID, name, ReducedAll(json, content), isError)
    case _ => b
  }

  function ReducedAll(json: Json, content: seq<Content>): (r: seq<Content>)
    ensures |r| == |content| && forall k :: 0 <= k < |content| ==> r[k] == Reduced(json, content[k])
    decreases content
  {
    if content == [] then []
    else ReducedAll(json, content[..|content| - 1]) + [Reduced(json, content[|content| - 1])]
  }

  predicate AllStorable(content: seq<Content>) {
    forall k :: 0 <= k < |content| ==> Storable(content[k])
  }

  predicate AllParse(json: Json, content: seq<Content>) {
    forall k :: 0 <= k < |content| ==> Parses(json, content[k])
  }

  predicate AllExact(json: Json, content: seq<Content>) {
    forall k :: 0 <= k < |content| ==> Exact(json, content[k])
  }

  /** A block, however deeply nested, can be stored exactly when it is of the storable kinds and its arguments
      are valid. It can then always be read again: without alternative texts and with its arguments compacted,
      hence the same exactly when it was like that before. */
  lemma {:induction false} BlockRoundTrip(json: Json, b: Content)
    ensures Marshal(b).Some? <==> Storable(b)
    ensures Marshal(b).Some? ==>
              var printed := Print(json, Marshal(b).value);
              && (printed.Some? <==> Parses(json, b))
              && (printed.Some? ==> Unmarshal(printed.value) == Some(Reduced(json, b)))
    ensures Reduced(json, b) == b <==> Exact(json, b)
    decreases b
  {
    if b.ToolResult? {
      ContentRoundTrip(json, b.content, b);
    }
  }

  lemma {:induction false} ContentRoundTrip(json: Json, content: seq<Content>, within: Content)
    requires forall k :: 0 <= k < |content| ==> content[k] < within
    ensures MarshalAll(content).Some? <==> AllStorable(content)
    ensures MarshalAll(content).Some? ==>
              var printed := PrintAll(json, MarshalAll(content).value);
              && (printed.Some? <==> AllParse(json, content))
              && (printed.Some? ==> UnmarshalAll(printed.value) == Some(ReducedAll(json, content)))
    ensures ReducedAll(json, content) == content <==> AllExact(json, content)
    decreases within, 0, |content|
  {
    hide Marshal, Unmarshal, Print, Reduced, Storable, Parses, Exact;
    if content != [] {
      var init, last := content[..|content| - 1], content[|content| - 1];
      ContentRoundTrip(json, init, within);
      BlockRoundTrip(json, last);
      Snoc(json, content);
      ReducedSnoc(json, content);
      if MarshalAll(init).Some? && Marshal(last).Some? {
        var before, one := MarshalAll(init).value, Marshal(last).value;
        PrintedSnoc(json, before, one);
        if PrintAll(json, before).Some? && Print(json, one).Some? {
          UnmarshalledSnoc(PrintAll(json, before).value, Print(json, one).value);
        }
      }
    }
  }

  lemma ReducedSnoc(json: Json, content: seq<Content>)
    requires content != []
    ensures var init, last := content[..|content| - 1], content[|content| - 1];
            && ReducedAll(json, content) == ReducedAll(json, init) + [Reduced(json, last)]
            && (ReducedAll(json, content) == content <==> ReducedAll(json, init) == init && Reduced(json, last) == last)
  {
    hide Reduced;
    var init, last := content[..|content| - 1], content[|content| - 1];
    var before, after := ReducedAll(json, init), ReducedAll(json, content);
    assert content == init + [last] && after[..|after| - 1] == before && after[|after| - 1] == Reduced(json, last);
  }

  lemma PrintedSnoc(json: Json, wire: seq<Wire>, w: Wire)
    ensures PrintAll(json, wire + [w]) ==
            if PrintAll(json, wire).Some? && Print(json, w).Some? then Some(PrintAll(json, wire).value + [Print(json, w).value])
            else None
  {
    hide Print;
    assert (wire + [w])[..|wire|] == wire;
  }

  lemma UnmarshalledSnoc(wire: seq<Wire>, w: Wire)
    ensures UnmarshalAll(wire + [w]) ==
            if UnmarshalAll(wire).Some? && Unmarshal(w).Some? then Some(UnmarshalAll(wire).value + [Unmarshal(w).value])
            else None
  {
    hide Unmarshal;
    assert (wire + [w])[..|wire|] == wire;
  }

  lemma Snoc(json: Json, content: seq<Content>)
    requires content != []
    ensures AllStorable(content) <==> AllStorable(content[..|content| - 1]) && Storable(content[|content| - 1])
    ensures AllParse(json, content) <==> AllParse(json, content[..|content| - 1]) && Parses(json, content[|content| - 1])
    ensures AllExact(json, content) <==> AllExact(json, content[..|content| - 1]) && Exact(json, content[|content| - 1])
  {}

  /** The name each kind is stored under, and what can be read back: nothing else, and no image or document
      without its source. */
  lemma StoredNames(b: Content, w: Wire)
    ensures Marshal(b).Some? ==>
              var kind := Marshal(b).value.kind;
              && (b.Text? <==> kind == "text") && (b.Image? <==> kind == "image") && (b.Document? <==> kind == "document")
              && (b.ToolCall? <==> kind == "tool_call") && (b.ToolResult? <==> kind == "tool_result")
    ensures Unmarshal(w).Some? ==>
              var c := Unmarshal(w).value;
              && (c.Text? <==> w.kind == "text") && (c.Image? <==> w.kind == "image") && (c.Document? <==> w.kind == "document")
              && (c.ToolCall? <==> w.kind == "tool_call") && (c.ToolResult? <==> w.kind == "tool_result")
              && (w.kind in {"image", "document"} ==> w.source.Some?) && Storable(c)
    decreases w
  {
    if w.kind == "tool_result" && Unmarshal(w).Some? {
      UnmarshalledStorable(w.content, w);
    }
  }

  lemma {:induction false} UnmarshalledStorable(content: seq<Wire>, within: Wire)
    requires UnmarshalAll(content).Some? && forall k :: 0 <= k < |content| ==> content[k] < within
    ensures AllStorable(UnmarshalAll(content).value)
    decreases within, 0, |content|
  {
    if content != [] {
      UnmarshalledStorable(content[..|content| - 1], within);
      StoredNames(Reasoning, content[|content| - 1]);
    }
  }

  predicate MessageStorable(json: Json, m: Message) {
    !m.metadata && AllStorable(m.content) && AllParse(json, m.content)
  }

  predicate MessageExact(json: Json, m: Message) {
    AllExact(json, m.content)
  }

  function ReducedMessage(json: Json, m: Message): Message {
    m.(content := ReducedAll(json, m.content))
  }

  function ReducedMessages(json: Json, messages: seq<Message>): seq<Message> {
    seq(|messages|, k requires 0 <= k < |messages| => ReducedMessage(json, messages[k]))
  }

  lemma ContentAlone(json: Json, content: seq<Content>)
    ensures MarshalContent(json, content).Some? <==> AllStorable(content) && AllParse(json, content)
    ensures MarshalContent(json, content).Some? ==>
              UnmarshalAll(MarshalContent(json, content).value) == Some(ReducedAll(json, content))
    ensures ReducedAll(json, content) == content <==> AllExact(json, content)
  {
    ContentRoundTrip(json, content, ToolResult("", "", content, false));
  }

  /** Saving a transcript succeeds exactly when all its messages can be stored. Loading it then succeeds and
      gives it back, reduced; so it comes back the same exactly when all of it was exact. */
  lemma {:induction false} MessagesRoundTrip(json: Json, messages: seq<Message>)
    ensures MarshalMessages(json, messages).Some? <==>
            forall k :: 0 <= k < |messages| ==> MessageStorable(json, messages[k])
    ensures MarshalMessages(json, messages).Some? ==>
              && UnmarshalMessages(MarshalMessages(json, messages).value) == Some(ReducedMessages(json, messages))
              && (ReducedMessages(json, messages) == messages <==>
                  forall k :: 0 <= k < |messages| ==> MessageExact(json, messages[k]))
  {
    hide MarshalContent, UnmarshalAll, ReducedAll, MessageStorable;
    if messages != [] {
      var init, last := messages[..|messages| - 1], messages[|messages| - 1];
      MessagesRoundTrip(json, init);
      ContentAlone(json, last.content);
      LastStorable(json, messages);
      if MarshalMessages(json, messages).Some? {
        var wire := MarshalMessages(json, messages).value;
        assert wire[..|wire| - 1] == MarshalMessages(json, init).value;
        assert !last.metadata;
        assert ReducedMessages(json, messages) == ReducedMessages(json, init) + [ReducedMessage(json, last)];
      }
    }
    ReducedExact(json, messages);
  }

  lemma LastStorable(json: Json, messages: seq<Message>)
    requires messages != []
    ensures var init, last := messages[..|messages| - 1], messages[|messages| - 1];
            (forall k :: 0 <= k < |messages| ==> MessageStorable(json, messages[k])) <==>
            (forall k :: 0 <= k < |init| ==> MessageStorable(json, init[k]))
            && !last.metadata && AllStorable(last.content) && AllParse(json, last.content)
  {
    var init := messages[..|messages| - 1];
    assert forall k :: 0 <= k < |init| ==> messages[k] == init[k];
    assert MessageStorable(json, messages[|messages| - 1]) <==>
           (var last := messages[|messages| - 1]; !last.metadata && AllStorable(last.content) && AllParse(json, last.content));
  }

  lemma ReducedExact(json: Json, messages: seq<Message>)
    ensures ReducedMessages(json, messages) == messages <==>
            forall k :: 0 <= k < |messages| ==> MessageExact(json, messages[k])
  {
    forall k | 0 <= k < |messages|
      ensures ReducedMessages(json, messages)[k] == messages[k] <==> MessageExact(json, messages[k])
    {
      ContentAlone(json, messages[k].content);
    }
  }

  // ---------------------------------------------------------------- storing what was loaded

  /** Compacting twice is compacting once, and what is compact stays valid. */
  ghost predicate Sensible(json: Json) {
    && json.isValid("{}") && json.compact("{}") == "{}"
    && forall a: string :: json.isValid(a) ==> json.isValid(json.compact(a)) && json.compact(json.compact(a)) == json.compact(a)
  }

  lemma {:induction false} ReducedFine(json: Json, b: Content)
    requires Sensible(json) && Storable(b) && Parses(json, b)
    ensures Storable(Reduced(json, b)) && Parses(json, Reduced(json, b)) && Exact(json, Reduced(json, b))
    decreases b
  {
    match b
    case ToolResult(callID, name, content, isError) =>
      var reduced := ReducedAll(json, content);
      forall k | 0 <= k < |content|
        ensures Storable(reduced[k]) && Parses(json, reduced[k]) && Exact(json, reduced[k])
      {
        ReducedFine(json, content[k]);
      }
      ResultFine(json, callID, name, reduced, isError);
    case _ =>
  }

  lemma ResultFine(json: Json, callID: string, name: string, content: seq<Content>, isError: bool)
    requires forall k :: 0 <= k < |content| ==> Storable(content[k]) && Parses(json, content[k]) && Exact(json, content[k])
    ensures var b := ToolResult(callID, name, content, isError); Storable(b) && Parses(json, b) && Exact(json, b)
  {
  }

  /** What was loaded can be stored again and then loads exactly, however often a conversation goes on. */
  lemma StoredAgain(json: Json, messages: seq<Message>)
    requires Sensible(json) && MarshalMessages(json, messages).Some?
    ensures var loaded := ReducedMessages(json, messages);
            && UnmarshalMessages(MarshalMessages(json, messages).value) == Some(loaded)
            && MarshalMessages(json, loaded).Some?
            && UnmarshalMessages(MarshalMessages(json, loaded).value) == Some(loaded)
  {
    hide MarshalMessages, UnmarshalMessages;
    MessagesRoundTrip(json, messages);
    var loaded := ReducedMessages(json, messages);
    forall k | 0 <= k < |loaded| ensures MessageStorable(json, loaded[k]) && MessageExact(json, loaded[k]) {
      assert MessageStorable(json, messages[k]);
      forall i | 0 <= i < |messages[k].content|
        ensures var b := loaded[k].content[i]; Storable(b) && Parses(json, b) && Exact(json, b)
      {
        ReducedFine(json, messages[k].content[i]);
      }
    }
    MessagesRoundTrip(json, loaded);
  }

  // ---------------------------------------------------------------- what transcripts are made of

  /** A content part of a request; a source that could not be read is `None`. */
  datatype InputPart = TextInput(text: string) | ImageInput(source: Option<Source>) | FileInput(source: Option<Source>, name: string) | OtherInput

  datatype InputItem =
    | MessageItem(role: Option<Role>, parts: seq<InputPart>)
    | CallItem(callID: string, name: string, arguments: string)
    | OutputItem(callID: string, output: Option<seq<InputPart>>)
    | OtherItem

  function DecodePart(p: InputPart): Option<Content> {
    match p
    case TextInput(text) => Some(Text(text, []))
    case ImageInput(Some(source)) => Some(Image(source, ""))
    case FileInput(Some(source), name) => Some(Document(source, name, ""))
    case _ => None
  }

  function DecodeParts(parts: seq<InputPart>): Option<seq<Content>> {
    if parts == [] then Some([])
    else
      match (DecodeParts(parts[..|parts| - 1]), DecodePart(parts[|parts| - 1]))
      case (Some(before), Some(last)) => Some(before + [last])
      case _ => None
  }

  /** A missing output stands for an empty text. */
  function DecodeItem(json: Json, item: InputItem): Option<Message> {
    match item
    case MessageItem(Some(role), parts) =>
      (match DecodeParts(parts)
       case None => None
       case Some(content) => Some(Message(role, "", content, false)))
    case CallItem(callID, name, arguments) =>
      if !json.isValid(OrEmptyObject(arguments)) then None
      else Some(Message(Assistant, "", [ToolCall(callID, name, OrEmptyObject(arguments))], false))
    case OutputItem(callID, None) => Some(Message(User, "", [ToolResult(callID, "", [Text("", [])], false)], false))
    case OutputItem(callID, Some(parts)) =>
      (match DecodeParts(parts)
       case None => None
       case Some(content) => Some(Message(User, "", [ToolResult(callID, "", content, false)], false)))
    case _ => None
  }

  /** The reply a turn keeps: its texts and tool calls. */
  function Kept(content: seq<Content>): seq<Content> {
    if content == [] then []
    else
      var last := content[|content| - 1];
      Kept(content[..|content| - 1]) + if last.Text? || last.ToolCall? then [last] else []
  }

  /** One turn as it is appended to a transcript. */
  datatype Turn = Turn(input: seq<InputItem>, reply: seq<Content>)

  function DecodeItems(json: Json, items: seq<InputItem>): Option<seq<Message>> {
    if items == [] then Some([])
    else
      match (DecodeItems(json, items[..|items| - 1]), DecodeItem(json, items[|items| - 1]))
      case (Some(before), Some(last)) => Some(before + [last])
      case _ => None
  }

  function ReplyOf(content: seq<Content>): seq<Message> {
    var kept := Kept(content);
    if kept == [] then [] else [Message(Assistant, "", kept, false)]
  }

  /** The transcript after the turns, with the items a conversation was created with in front; `None` when a
      request was refused. */
  function Built(json: Json, items: seq<InputItem>, turns: seq<Turn>): Option<seq<Message>> {
    if turns == [] then DecodeItems(json, items)
    else
      var last := turns[|turns| - 1];
      match (Built(json, items, turns[..|turns| - 1]), DecodeItems(json, last.input))
      case (Some(before), Some(input)) => Some(before + input + ReplyOf(last.reply))
      case _ => None
  }

  /** What a part of a request becomes: nothing of it is lost but what could not be read. */
  predicate PartRead(p: InputPart, c: Content) {
    match p
    case TextInput(text) => c.Text? && c.text == text && c.citations == []
    case ImageInput(source) => source.Some? && c.Image? && c.source == source.value && c.alt == ""
    case FileInput(source, name) =>
      source.Some? && c.Document? && c.source == source.value && c.name == name && c.context == ""
    case OtherInput => false
  }

  predicate PartReadable(p: InputPart) {
    p.TextInput? || (p.ImageInput? && p.source.Some?) || (p.FileInput? && p.source.Some?)
  }

  predicate PartsRead(parts: seq<InputPart>, content: seq<Content>) {
    |content| == |parts| && forall k :: 0 <= k < |parts| ==> PartRead(parts[k], content[k])
  }

  lemma {:induction false} PartsExactly(parts: seq<InputPart>)
    ensures DecodeParts(parts).Some? <==> forall k :: 0 <= k < |parts| ==> PartReadable(parts[k])
    ensures DecodeParts(parts).Some? ==> PartsRead(parts, DecodeParts(parts).value)
  {
    if parts != [] {
      var init := parts[..|parts| - 1];
      PartsExactly(init);
      assert forall k :: 0 <= k < |init| ==> parts[k] == init[k];
    }
  }

  /** What an item of a request becomes: a message of its role, an assistant's call, or a user's result. */
  ghost predicate ItemRead(json: Json, item: InputItem, m: Message) {
    && m.name == "" && !m.metadata
    && match item
       case MessageItem(role, parts) => role == Some(m.role) && PartsRead(parts, m.content)
       case CallItem(callID, name, arguments) =>
         && m.role == Assistant && |m.content| == 1
         && m.content[0] == ToolCall(callID, name, if arguments == "" then "{}" else arguments)
       case OutputItem(callID, output) =>
         && m.role == User && |m.content| == 1 && m.content[0].ToolResult?
         && m.content[0].callID == callID && m.content[0].name == "" && !m.content[0].isError
         && (output.Some? ==> PartsRead(output.value, m.content[0].content))
         && (output.None? ==> m.content[0].content == [Text("", [])])
       case OtherItem => false
  }

  predicate ItemReadable(json: Json, item: InputItem) {
    match item
    case MessageItem(role, parts) => role.Some? && forall k :: 0 <= k < |parts| ==> PartReadable(parts[k])
    case CallItem(_, _, arguments) => json.isValid(if arguments == "" then "{}" else arguments)
    case OutputItem(_, output) => output.Some? ==> forall k :: 0 <= k < |output.value| ==> PartReadable(output.value[k])
    case OtherItem => false
  }

  lemma ItemExactly(json: Json, item: InputItem)
    ensures DecodeItem(json, item).Some? <==> ItemReadable(json, item)
    ensures DecodeItem(json, item).Some? ==> ItemRead(json, item, DecodeItem(json, item).value)
  {
    match item
    case MessageItem(_, parts) => PartsExactly(parts);
    case OutputItem(_, Some(parts)) => PartsExactly(parts);
    case _ =>
  }

  /** A request is read exactly if all its items are, and becomes one message for each, in order. */
  lemma {:induction false} ItemsExactly(json: Json, items: seq<InputItem>)
    ensures DecodeItems(json, items).Some? <==> forall k :: 0 <= k < |items| ==> ItemReadable(json, items[k])
    ensures DecodeItems(json, items).Some? ==>
              var messages := DecodeItems(json, items).value;
              |messages| == |items| && forall k :: 0 <= k < |items| ==> ItemRead(json, items[k], messages[k])
  {
    hide DecodeItem, ItemRead, ItemReadable;
    if items != [] {
      var init, last := items[..|items| - 1], items[|items| - 1];
      ItemsExactly(json, init);
      ItemExactly(json, last);
      assert forall k :: 0 <= k < |init| ==> items[k] == init[k];
    }
  }

  // ---------------------------------------------------------------- the transcripts of a continued chain

  /** What the chain of turns sees of a block: which kind of reply it is. */
  function Seen(b: Content): Block {
    match b
    case Text(text, _) => TextBlock(text)
    case ToolCall(id, name, arguments) => ToolCallBlock(id, name, arguments)
    case Reasoning => ReasoningBlock("", "", "")
    case SearchCall => SearchBlock([])
    case Audio => AudioBlock("")
    case _ => OtherBlock
  }

  function SeenAll(content: seq<Content>): (r: seq<Block>)
    ensures |r| == |content|
  {
    if content == [] then [] else SeenAll(content[..|content| - 1]) + [Seen(content[|content| - 1])]
  }

  function SeenMessages(messages: seq<Message>): (r: seq<ChatMessage>)
    ensures |r| == |messages|
  {
    if messages == [] then []
    else
      var last := messages[|messages| - 1];
      SeenMessages(messages[..|messages| - 1]) + [ChatMessage(last.role, SeenAll(last.content))]
  }

  /** The turns as links of a lineage. */
  function Links(json: Json, turns: seq<Turn>): seq<C.Link> {
    if turns == [] then []
    else
      var last := turns[|turns| - 1];
      var input := match DecodeItems(json, last.input) case None => [] case Some(messages) => messages;
      Links(json, turns[..|turns| - 1]) + [C.Link(SeenMessages(input), SeenAll(last.reply))]
  }

  lemma SeenOneMore(content: seq<Content>, b: Content)
    ensures SeenAll(content + [b]) == SeenAll(content) + [Seen(b)]
  {
    assert (content + [b])[..|content|] == content;
  }

  lemma PortableOneMore(content: seq<Block>, b: Block)
    ensures S.PortableBlocks(content + [b]) == S.PortableBlocks(content) + if S.Portable(b) then [b] else []
  {
    assert (content + [b])[..|content|] == content;
  }

  lemma {:induction false} KeptIsPortable(content: seq<Content>)
    ensures SeenAll(Kept(content)) == S.PortableBlocks(SeenAll(content))
  {
    hide SeenAll, S.PortableBlocks;
    if content == [] {
      NothingKept();
    } else {
      var init, last := content[..|content| - 1], content[|content| - 1];
      KeptIsPortable(init);
      assert content == init + [last];
      SeenOneMore(init, last);
      SeenOneMore(Kept(init), last);
      PortableOneMore(SeenAll(init), Seen(last));
      if last.Text? || last.ToolCall? {
        assert Kept(content) == Kept(init) + [last];
      } else {
        assert Kept(content) == Kept(init);
      }
    }
  }

  lemma NothingKept()
    ensures SeenAll(Kept([])) == S.PortableBlocks(SeenAll([]))
  {
  }

  lemma ReplyIsSeen(content: seq<Content>)
    ensures SeenMessages(ReplyOf(content)) == S.Reply(SeenAll(content))
  {
    KeptIsPortable(content);
    if Kept(content) != [] {
      var m := Message(Assistant, "", Kept(content), false);
      assert [m][..0] == [];
      assert SeenMessages([m]) == SeenMessages([]) + [ChatMessage(Assistant, SeenAll(Kept(content)))];
    }
  }

  lemma {:induction false} SeenTogether(before: seq<Message>, after: seq<Message>)
    ensures SeenMessages(before + after) == SeenMessages(before) + SeenMessages(after)
  {
    if after == [] {
      assert before + after == before;
    } else {
      assert (before + after)[..|before + after| - 1] == before + after[..|after| - 1];
      SeenTogether(before, after[..|after| - 1]);
    }
  }

  /** These are the transcripts of the chain: item for item and turn for turn. */
  lemma {:induction false} BuiltIsSpoken(json: Json, items: seq<InputItem>, turns: seq<Turn>)
    requires Built(json, items, turns).Some?
    ensures DecodeItems(json, items).Some?
    ensures SeenMessages(Built(json, items, turns).value) ==
            C.Transcript(C.Lineage(SeenMessages(DecodeItems(json, items).value), Links(json, turns)))
  {
    hide DecodeItems, ReplyOf, SeenMessages, SeenAll, S.Reply;
    if turns != [] {
      var init, last := turns[..|turns| - 1], turns[|turns| - 1];
      BuiltIsSpoken(json, items, init);
      var before, input := Built(json, items, init).value, DecodeItems(json, last.input).value;
      SeenTogether(before, input);
      SeenTogether(before + input, ReplyOf(last.reply));
      ReplyIsSeen(last.reply);
      var links := Links(json, turns);
      assert links[..|links| - 1] == Links(json, init);
    }
  }

  // ---------------------------------------------------------------- they can be stored

  /** Without metadata and of storable kinds, and no image has alternative text. */
  predicate Decoded(m: Message) {
    !m.metadata && AllStorable(m.content) && forall k :: 0 <= k < |m.content| ==> !HasAlt(m.content[k])
  }

  predicate HasAlt(b: Content) {
    match b
    case Image(_, alt) => alt != ""
    case ToolResult(_, _, content, _) => exists k :: 0 <= k < |content| && HasAlt(content[k])
    case _ => false
  }

  ghost predicate AllDecoded(messages: seq<Message>) {
    forall k :: 0 <= k < |messages| ==> Decoded(messages[k])
  }

  /** The arguments of the calls that a turn's reply keeps are valid, as those of every answer are. */
  predicate RepliesParse(json: Json, turns: seq<Turn>) {
    forall k :: 0 <= k < |turns| ==> AllParse(json, Kept(turns[k].reply))
  }

  ghost predicate AllMessagesParse(json: Json, messages: seq<Message>) {
    forall k :: 0 <= k < |messages| ==> AllParse(json, messages[k].content)
  }

  lemma {:induction false} PartsDecoded(json: Json, parts: seq<InputPart>)
    requires DecodeParts(parts).Some?
    ensures AllStorable(DecodeParts(parts).value) && AllParse(json, DecodeParts(parts).value)
    ensures forall k :: 0 <= k < |DecodeParts(parts).value| ==> !HasAlt(DecodeParts(parts).value[k])
  {
    if parts != [] {
      PartsDecoded(json, parts[..|parts| - 1]);
    }
  }

  lemma {:induction false} KeptDecoded(content: seq<Content>)
    ensures AllStorable(Kept(content)) && forall k :: 0 <= k < |Kept(content)| ==> !HasAlt(Kept(content)[k])
  {
    if content != [] {
      KeptDecoded(content[..|content| - 1]);
    }
  }

  lemma ItemDecoded(json: Json, item: InputItem)
    requires DecodeItem(json, item).Some?
    ensures Decoded(DecodeItem(json, item).value) && AllParse(json, DecodeItem(json, item).value.content)
  {
    match item
    case MessageItem(_, parts) => PartsDecoded(json, parts);
    case OutputItem(callID, Some(parts)) =>
      PartsDecoded(json, parts);
      ResultDecoded(json, callID, DecodeParts(parts).value);
    case OutputItem(callID, None) => ResultDecoded(json, callID, [Text("", [])]);
    case _ =>
  }

  lemma ResultDecoded(json: Json, callID: string, content: seq<Content>)
    requires AllStorable(content) && AllParse(json, content) && forall k :: 0 <= k < |content| ==> !HasAlt(content[k])
    ensures var b := ToolResult(callID, "", content, false); Storable(b) && Parses(json, b) && !HasAlt(b)
  {
  }

  lemma {:induction false} ItemsDecoded(json: Json, items: seq<InputItem>)
    requires DecodeItems(json, items).Some?
    ensures AllDecoded(DecodeItems(json, items).value) && AllMessagesParse(json, DecodeItems(json, items).value)
  {
    hide Decoded, AllParse, DecodeItem;
    if items != [] {
      ItemsDecoded(json, items[..|items| - 1]);
      ItemDecoded(json, items[|items| - 1]);
    }
  }

  lemma {:induction false} BuiltDecoded(json: Json, items: seq<InputItem>, turns: seq<Turn>)
    requires Built(json, items, turns).Some?
    ensures AllDecoded(Built(json, items, turns).value)
    ensures AllMessagesParse(json, Built(json, items, turns).value) <==> RepliesParse(json, turns)
  {
    hide DecodeItems, AllStorable, AllParse, Kept, HasAlt;
    if turns == [] {
      ItemsDecoded(json, items);
    } else {
      var init, last := turns[..|turns| - 1], turns[|turns| - 1];
      BuiltDecoded(json, items, init);
      ItemsDecoded(json, last.input);
      KeptDecoded(last.reply);
      var before, input := Built(json, items, init).value, DecodeItems(json, last.input).value;
      ParseTogether(json, before + input, ReplyOf(last.reply));
      ParseTogether(json, before, input);
      NothingParses(json);
      assert RepliesParse(json, turns) <==> RepliesParse(json, init) && AllParse(json, Kept(last.reply)) by {
        assert forall k :: 0 <= k < |init| ==> turns[k] == init[k];
      }
      var reply := ReplyOf(last.reply);
      assert AllMessagesParse(json, reply) <==> AllParse(json, Kept(last.reply)) by {
        assert reply == [] || (|reply| == 1 && reply[0].content == Kept(last.reply));
      }
    }
  }

  lemma NothingParses(json: Json)
    ensures AllParse(json, [])
  {
  }

  lemma ParseTogether(json: Json, before: seq<Message>, after: seq<Message>)
    ensures AllMessagesParse(json, before + after) <==> AllMessagesParse(json, before) && AllMessagesParse(json, after)
  {
    if AllMessagesParse(json, before + after) {
      assert forall k :: 0 <= k < |before| ==> (before + after)[k] == before[k];
      assert forall k :: 0 <= k < |after| ==> (before + after)[|before| + k] == after[k];
    }
  }

  /** Of all arguments, however deep they are nested, printing changes none. */
  predicate Compact(json: Json, b: Content) {
    match b
    case ToolCall(_, _, arguments) => arguments != "" ==> json.compact(arguments) == arguments
    case ToolResult(_, _, content, _) => forall k :: 0 <= k < |content| ==> Compact(json, content[k])
    case _ => true
  }

  lemma {:induction false} ExactMeansCompact(json: Json, b: Content)
    ensures Exact(json, b) <==> Compact(json, b) && !HasAlt(b)
    decreases b
  {
    if b.ToolResult? {
      forall k | 0 <= k < |b.content| ensures Exact(json, b.content[k]) <==> Compact(json, b.content[k]) && !HasAlt(b.content[k]) {
        ExactMeansCompact(json, b.content[k]);
      }
    }
  }

  /** Every transcript that requests and replies can build is saved if and only if the replies' arguments are
      valid, and is then loaded with its arguments compacted: exactly if and only if they were compact. */
  lemma BuiltTranscriptsSurvive(json: Json, items: seq<InputItem>, turns: seq<Turn>)
    requires Built(json, items, turns).Some?
    ensures var built := Built(json, items, turns).value;
            && (MarshalMessages(json, built).Some? <==> RepliesParse(json, turns))
            && (MarshalMessages(json, built).Some? ==>
                  var loaded := UnmarshalMessages(MarshalMessages(json, built).value);
                  && loaded == Some(ReducedMessages(json, built))
                  && (loaded == Some(built) <==>
                      forall k, i :: 0 <= k < |built| && 0 <= i < |built[k].content| ==> Compact(json, built[k].content[i])))
  {
    hide MarshalMessages, UnmarshalMessages, Built, HasAlt, Compact, Exact, Parses, Storable;
    BuiltDecoded(json, items, turns);
    var built := Built(json, items, turns).value;
    MessagesRoundTrip(json, built);
    forall k | 0 <= k < |built|
      ensures MessageExact(json, built[k]) <==> forall i :: 0 <= i < |built[k].content| ==> Compact(json, built[k].content[i])
    {
      forall i | 0 <= i < |built[k].content| ensures Exact(json, built[k].content[i]) <==> Compact(json, built[k].content[i]) {
        assert Decoded(built[k]);
        ExactMeansCompact(json, built[k].content[i]);
      }
    }
  }

  /** A request's call whose arguments hold a space comes back without it. */
  lemma SpacesAreLost(json: Json, callID: string, name: string)
    requires json.isValid("{ }") && json.compact("{ }") == "{}"
    ensures var built := Built(json, [CallItem(callID, name, "{ }")], []);
            && built == Some([Message(Assistant, "", [ToolCall(callID, name, "{ }")], false)])
            && MarshalMessages(json, built.value).Some?
            && UnmarshalMessages(MarshalMessages(json, built.value).value)
               == Some([Message(Assistant, "", [ToolCall(callID, name, "{}")], false)])
  {
    var item := CallItem(callID, name, "{ }");
    var call := ToolCall(callID, name, "{ }");
    assert [item][..0] == [] && DecodeItems(json, []) == Some([]);
    assert [call][..0] == [] && ReducedAll(json, [call]) == [ToolCall(callID, name, "{}")];
    BuiltTranscriptsSurvive(json, [item], []);
    var built := Built(json, [item], []).value;
    assert ReducedMessages(json, built) == [Message(Assistant, "", [ToolCall(callID, name, "{}")], false)];
  }
}
