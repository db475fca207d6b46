/** Buffered Responses encoding and the store that keeps responses for later turns. */
module ResponseStore {
  import opened Llm
  import opened ResponsesEncoder
  import Decimal

  // ---------------------------------------------------------------- the buffered encoding

  /** The locals of the encoding loop; `parts` holds the text not yet flushed into a message. */
  datatype Encoding = Encoding(
    items: seq<OutputItem>, parts: seq<ContentPart>, text: string, messages: nat, calls: nat, reasonings: nat)

  const NO_OUTPUT := Encoding([], [], "", 0, 0, 0)

  function Flush(e: Encoding): Encoding {
    if e.parts == [] then e
    else
      e.(items := e.items + [MessageOut("msg_gateway_" + Decimal.Print(e.messages), Completed, e.parts)],
         parts := [], messages := e.messages + 1)
  }

  /** Search calls, images and the like never come from a stream; the model rejects them here. */
  function EncodeBlock(refusal: bool, e: Encoding, b: Block): Option<Encoding> {
    match b
    case TextBlock(text) =>
      Some(if refusal then e.(parts := e.parts + [RefusalPart(text)])
           else e.(parts := e.parts + [OutputText(text)], text := e.text + text))
    case ToolCallBlock(id, name, arguments) =>
      var f := Flush(e);
      Some(f.(items := f.items + [CallOut("fc_gateway_" + Decimal.Print(f.calls), Completed, id, name, arguments)],
              calls := f.calls + 1))
    case ReasoningBlock(thinking, _, _) =>
      var f := Flush(e);
      Some(if thinking == "" then f
           else f.(items := f.items + [ReasoningOut("rs_gateway_" + Decimal.Print(f.reasonings), Completed, [thinking])],
                   reasonings := f.reasonings + 1))
    case _ => None
  }

  function EncodeBlocks(refusal: bool, content: seq<Block>): Option<Encoding> {
    if content == [] then Some(NO_OUTPUT)
    else
      match EncodeBlocks(refusal, content[..|content| - 1])
      case None => None
      case Some(e) => EncodeBlock(refusal, e, content[|content| - 1])
  }

  lemma {:induction false} RejectedBlockStands(refusal: bool, content: seq<Block>, k: nat)
    requires k <= |content| && EncodeBlocks(refusal, content[..k]).None?
    ensures EncodeBlocks(refusal, content).None?
  {
    if k < |content| {
      assert content[..|content| - 1][..k] == content[..k];
      RejectedBlockStands(refusal, content[..|content| - 1], k);
    } else {
      assert content[..k] == content;
    }
  }

  method EncodeOutput(refusal: bool, content: seq<Block>) returns (ok: bool, items: seq<OutputItem>, text: string)
    ensures ok == EncodeBlocks(refusal, content).Some?
    ensures ok ==> var e := Flush(EncodeBlocks(refusal, content).value); items == e.items && text == e.text
  {
    items, text := [], "";
    var parts: seq<ContentPart> := [];
    var messages, calls, reasonings := 0, 0, 0;
    for k := 0 to |content|
      invariant EncodeBlocks(refusal, content[..k]) == Some(Encoding(items, parts, text, messages, calls, reasonings))
    {
      assert content[..k + 1][..k] == content[..k];
      var b := content[k];
      if b.TextBlock? {
        if refusal {
          parts := parts + [RefusalPart(b.text)];
          continue;
        }
        parts := parts + [OutputText(b.text)];
        text := text + b.text;
      } else if b.ToolCallBlock? || b.ReasoningBlock? {
        if parts != [] {
          items := items + [MessageOut("msg_gateway_" + Decimal.Print(messages), Completed, parts)];
          messages := messages + 1;
          parts := [];
        }
        if b.ToolCallBlock? {
          items := items + [CallOut("fc_gateway_" + Decimal.Print(calls), Completed, b.id, b.name, b.arguments)];
          calls := calls + 1;
        } else if b.thinking != "" {
          items := items + [ReasoningOut("rs_gateway_" + Decimal.Print(reasonings), Completed, [b.thinking])];
          reasonings := reasonings + 1;
        }
      } else {
        RejectedBlockStands(refusal, content, k + 1);
        return false, [], "";
      }
    }
    assert content[..|content|] == content;
    if parts != [] {
      items := items + [MessageOut("msg_gateway_" + Decimal.Print(messages), Completed, parts)];
    }
    return true, items, text;
  }

  // ---------------------------------------------------------------- what an output says

  datatype CallSeen = CallSeen(callID: string, name: string, arguments: string)

  function CallsOf(items: seq<OutputItem>): seq<CallSeen> {
    if items == [] then []
    else
      var last := items[|items| - 1];
      CallsOf(items[..|items| - 1]) + if last.CallOut? then [CallSeen(last.callID, last.name, last.arguments)] else []
  }

  /** The message texts in order, refusals included: every part a reader of the output sees. */
  function PartsOf(items: seq<OutputItem>): seq<ContentPart> {
    if items == [] then []
    else
      var last := items[|items| - 1];
      PartsOf(items[..|items| - 1]) + if last.MessageOut? then last.content else []
  }

  lemma OutputSnoc(items: seq<OutputItem>, item: OutputItem)
    ensures CallsOf(items + [item]) ==
            CallsOf(items) + if item.CallOut? then [CallSeen(item.callID, item.name, item.arguments)] else []
    ensures PartsOf(items + [item]) == PartsOf(items) + if item.MessageOut? then item.content else []
  {}

  function ContentCalls(content: seq<Block>): seq<CallSeen> {
    if content == [] then []
    else
      ContentCalls(content[..|content| - 1]) + BlockCalls(content[|content| - 1])
  }

  function ContentParts(refusal: bool, content: seq<Block>): seq<ContentPart> {
    if content == [] then []
    else
      ContentParts(refusal, content[..|content| - 1]) + BlockParts(refusal, content[|content| - 1])
  }

  function ContentText(content: seq<Block>): string {
    if content == [] then ""
    else
      var last := content[|content| - 1];
      ContentText(content[..|content| - 1]) + if last.TextBlock? then last.text else ""
  }

  lemma FlushSays(e: Encoding)
    ensures CallsOf(Flush(e).items) == CallsOf(e.items)
    ensures PartsOf(Flush(e).items) == PartsOf(e.items) + e.parts
  {}

  function BlockCalls(b: Block): seq<CallSeen> {
    if b.ToolCallBlock? then [CallSeen(b.id, b.name, b.arguments)] else []
  }

  function BlockParts(refusal: bool, b: Block): seq<ContentPart> {
    if b.TextBlock? then [if refusal then RefusalPart(b.text) else OutputText(b.text)] else []
  }

  lemma StepSays(refusal: bool, e: Encoding, b: Block)
    requires EncodeBlock(refusal, e, b).Some?
    ensures var n := EncodeBlock(refusal, e, b).value;
            && CallsOf(n.items) == CallsOf(e.items) + BlockCalls(b)
            && PartsOf(n.items) + n.parts == (PartsOf(e.items) + e.parts) + BlockParts(refusal, b)
            && n.text == e.text + (if b.TextBlock? && !refusal then b.text else "")
  {
    hide CallsOf, PartsOf;
    var f := Flush(e);
    FlushSays(e);
    assert e.text + "" == e.text;
    match b
    case TextBlock(text) =>
    case ToolCallBlock(id, name, arguments) =>
      OutputSnoc(f.items, CallOut("fc_gateway_" + Decimal.Print(f.calls), Completed, id, name, arguments));
    case ReasoningBlock(thinking, _, _) =>
      if thinking != "" {
        OutputSnoc(f.items, ReasoningOut("rs_gateway_" + Decimal.Print(f.reasonings), Completed, [thinking]));
      }
  }

  /** The grouping of text into messages loses and reorders nothing. */
  lemma {:induction false} EncodingSays(refusal: bool, content: seq<Block>)
    requires EncodeBlocks(refusal, content).Some?
    ensures var e := EncodeBlocks(refusal, content).value;
            && CallsOf(e.items) == ContentCalls(content)
            && PartsOf(e.items) + e.parts == ContentParts(refusal, content)
            && e.text == if refusal then "" else ContentText(content)
  {
    hide EncodeBlock;
    if content != [] {
      var before, b := content[..|content| - 1], content[|content| - 1];
      EncodingSays(refusal, before);
      StepSays(refusal, EncodeBlocks(refusal, before).value, b);
    }
  }

  /** One thing a reader of the output sees. */
  datatype Sight = PartSeen(part: ContentPart) | CallMade(call: CallSeen) | ThoughtSeen(thinking: string)

  function PartSights(parts: seq<ContentPart>): seq<Sight> {
    seq(|parts|, k requires 0 <= k < |parts| => PartSeen(parts[k]))
  }

  function ItemSights(item: OutputItem): seq<Sight> {
    match item
    case MessageOut(_, _, parts) => PartSights(parts)
    case CallOut(_, _, callID, name, arguments) => [CallMade(CallSeen(callID, name, arguments))]
    case ReasoningOut(_, _, summary) => seq(|summary|, k requires 0 <= k < |summary| => ThoughtSeen(summary[k]))
  }

  function Sights(items: seq<OutputItem>): seq<Sight> {
    if items == [] then [] else Sights(items[..|items| - 1]) + ItemSights(items[|items| - 1])
  }

  /** What is to be seen of a block: nothing of thinking that was withheld. */
  function BlockSights(refusal: bool, b: Block): seq<Sight> {
    match b
    case TextBlock(text) => [PartSeen(if refusal then RefusalPart(text) else OutputText(text))]
    case ToolCallBlock(id, name, arguments) => [CallMade(CallSeen(id, name, arguments))]
    case ReasoningBlock(thinking, _, _) => if thinking == "" then [] else [ThoughtSeen(thinking)]
    case _ => []
  }

  function ContentSights(refusal: bool, content: seq<Block>): seq<Sight> {
    if content == [] then []
    else ContentSights(refusal, content[..|content| - 1]) + BlockSights(refusal, content[|content| - 1])
  }

  datatype Counts = Counts(messages: nat, calls: nat, thoughts: nat)

  function Count(n: Counts, item: OutputItem): Counts {
    match item
    case MessageOut(_, _, _) => n.(messages := n.messages + 1)
    case CallOut(_, _, _, _, _) => n.(calls := n.calls + 1)
    case ReasoningOut(_, _, _) => n.(thoughts := n.thoughts + 1)
  }

  function Counted(items: seq<OutputItem>): Counts {
    if items == [] then Counts(0, 0, 0) else Count(Counted(items[..|items| - 1]), items[|items| - 1])
  }

  predicate ItemNeat(n: Counts, item: OutputItem) {
    && item.status == Completed
    && match item
       case MessageOut(id, _, parts) => id == "msg_gateway_" + Decimal.Print(n.messages) && parts != []
       case CallOut(id, _, _, _, _) => id == "fc_gateway_" + Decimal.Print(n.calls)
       case ReasoningOut(id, _, summary) => id == "rs_gateway_" + Decimal.Print(n.thoughts) && |summary| == 1
  }

  /** All items are complete, none is empty, and each kind is numbered on its own. */
  predicate Neat(items: seq<OutputItem>) {
    items != [] ==> Neat(items[..|items| - 1]) && ItemNeat(Counted(items[..|items| - 1]), items[|items| - 1])
  }

  predicate Tidy(e: Encoding) {
    Neat(e.items) && Counted(e.items) == Counts(e.messages, e.calls, e.reasonings)
  }

  lemma ItemAdded(items: seq<OutputItem>, item: OutputItem)
    ensures Sights(items + [item]) == Sights(items) + ItemSights(item)
    ensures Neat(items + [item]) <==> Neat(items) && ItemNeat(Counted(items), item)
    ensures Counted(items + [item]) == Count(Counted(items), item)
  {
    assert (items + [item])[..|items|] == items;
  }

  lemma FlushTidy(e: Encoding)
    requires Tidy(e)
    ensures Tidy(Flush(e)) && Flush(e).parts == [] && Sights(Flush(e).items) == Sights(e.items) + PartSights(e.parts)
  {
    hide Sights, Neat, Counted, Decimal.Print;
    if e.parts != [] {
      ItemAdded(e.items, MessageOut("msg_gateway_" + Decimal.Print(e.messages), Completed, e.parts));
    }
  }

  lemma StepTidy(refusal: bool, e: Encoding, b: Block)
    requires Tidy(e) && EncodeBlock(refusal, e, b).Some?
    ensures var n := EncodeBlock(refusal, e, b).value;
            && Tidy(n)
            && Sights(n.items) + PartSights(n.parts) == (Sights(e.items) + PartSights(e.parts)) + BlockSights(refusal, b)
  {
    hide Sights, Neat, Counted, Decimal.Print, Flush;
    var f := Flush(e);
    FlushTidy(e);
    match b
    case TextBlock(text) =>
      assert PartSights(EncodeBlock(refusal, e, b).value.parts) == PartSights(e.parts) + BlockSights(refusal, b);
    case ToolCallBlock(id, name, arguments) =>
      ItemAdded(f.items, CallOut("fc_gateway_" + Decimal.Print(f.calls), Completed, id, name, arguments));
    case ReasoningBlock(thinking, _, _) =>
      if thinking != "" {
        ItemAdded(f.items, ReasoningOut("rs_gateway_" + Decimal.Print(f.reasonings), Completed, [thinking]));
      }
  }

  /** The buffered output shows everything the content holds, in its order, and is neat. */
  lemma {:induction false} EncodingShows(refusal: bool, content: seq<Block>)
    requires EncodeBlocks(refusal, content).Some?
    ensures Neat(Flush(EncodeBlocks(refusal, content).value).items)
    ensures Sights(Flush(EncodeBlocks(refusal, content).value).items) == ContentSights(refusal, content)
  {
    EncodingTidy(refusal, content);
    FlushTidy(EncodeBlocks(refusal, content).value);
  }

  lemma {:induction false} EncodingTidy(refusal: bool, content: seq<Block>)
    requires EncodeBlocks(refusal, content).Some?
    ensures var e := EncodeBlocks(refusal, content).value;
            Tidy(e) && Sights(e.items) + PartSights(e.parts) == ContentSights(refusal, content)
  {
    hide EncodeBlock, Tidy, Sights;
    if content != [] {
      var before, b := content[..|content| - 1], content[|content| - 1];
      EncodingTidy(refusal, before);
      StepTidy(refusal, EncodeBlocks(refusal, before).value, b);
    } else {
      NothingTidy();
    }
  }

  /** No message directly follows another. */
  predicate Apart(items: seq<OutputItem>) {
    forall k :: 0 < k < |items| ==> !(items[k - 1].MessageOut? && items[k].MessageOut?)
  }

  /** Texts between which nothing else was said share one message; only thinking that was withheld parts them. */
  lemma {:induction false} TextsShareMessages(refusal: bool, content: seq<Block>)
    requires EncodeBlocks(refusal, content).Some?
    requires forall k :: 0 <= k < |content| && content[k].ReasoningBlock? ==> content[k].thinking != ""
    ensures var e := EncodeBlocks(refusal, content).value;
            && Apart(Flush(e).items) && Apart(e.items)
            && (e.items != [] ==> !e.items[|e.items| - 1].MessageOut?)
  {
    if content != [] {
      TextsShareMessages(refusal, content[..|content| - 1]);
    }
  }

  lemma NothingTidy()
    ensures Tidy(NO_OUTPUT) && Sights(NO_OUTPUT.items) == []
  {}

  // ---------------------------------------------------------------- persisting

  datatype Response = Response(
    id: string, previousID: string, conversationID: string, background: bool, store: bool, model: string,
    content: seq<Block>, stop: StopReason, usage: Usage)

  /** The JSON object a stored response is served from. */
  datatype Stored = Stored(
    id: string, status: Status, model: string, previousID: string, conversationID: string,
    background: bool, store: bool, output: seq<OutputItem>, outputText: string, usage: Usage)

  datatype Retention = DefaultRetention | BackgroundRetention

  datatype Record = Record(
    messages: seq<ChatMessage>, continuable: bool, payload: Stored, status: Status, retention: Retention)

  datatype Conversation = Conversation(id: string, messages: seq<ChatMessage>, continuable: bool)

  datatype Store = Store(responses: map<string, Record>, conversations: map<string, Conversation>)

  /** What a request resolved to; `active` is whether it asked for state at all. */
  datatype Plan = Plan(
    active: bool, previousID: string, conversationID: string, store: bool, background: bool,
    history: seq<ChatMessage>, conversation: Option<Conversation>)

  /** Which of the two writes the underlying store refuses. */
  datatype Faults = Faults(conversation: bool, response: bool)

  function EncodeResponse(r: Response): Option<Stored> {
    if r.stop == Unknown then None
    else
      match EncodeBlocks(r.stop == ContentFilter, r.content)
      case None => None
      case Some(e) =>
        Some(Stored(NormalizeID(r.id), if r.stop == MaxTokens then Incomplete else Completed, r.model, r.previousID,
                    r.conversationID, r.background, r.store, Flush(e).items, Flush(e).text, r.usage))
  }

  predicate Portable(b: Block) {
    b.TextBlock? || b.ToolCallBlock?
  }

  function PortableBlocks(content: seq<Block>): seq<Block> {
    if content == [] then []
    else
      PortableBlocks(content[..|content| - 1]) +
      if Portable(content[|content| - 1]) then [content[|content| - 1]] else []
  }

  predicate AllPortable(content: seq<Block>) {
    forall k :: 0 <= k < |content| ==> Portable(content[k])
  }

  /** The assistant turn kept for the next request. */
  function Reply(content: seq<Block>): seq<ChatMessage> {
    if PortableBlocks(content) == [] then [] else [ChatMessage(Assistant, PortableBlocks(content))]
  }

  /** The store and whether every write succeeded; a refused write leaves the store as it was. */
  function Persist(store: Store, plan: Plan, r: Response, faults: Faults): (bool, Store) {
    if !plan.active then (true, store)
    else
      var history := plan.history + Reply(r.content);
      var continuable := AllPortable(r.content);
      if plan.conversation.Some? && (faults.conversation || plan.conversation.value.id == "") then (false, store)
      else
        var s :=
          if plan.conversation.None? then store
          else
            var c := plan.conversation.value.(messages := history, continuable := continuable);
            store.(conversations := store.conversations[c.id := c]);
        if !plan.store then (true, s)
        else
          match EncodeResponse(r.(id := NormalizeID(r.id)))
          case None => (false, s)
          case Some(payload) =>
            if faults.response then (false, s)
            else
              var retention := if plan.background then BackgroundRetention else DefaultRetention;
              (true, s.(responses := s.responses[NormalizeID(r.id) :=
                          Record(history, continuable, payload, if r.stop == MaxTokens then Incomplete else Completed, retention)]))
  }

  // ---------------------------------------------------------------- when it is persisted

  predicate Encodable(b: Block) {
    b.TextBlock? || b.ToolCallBlock? || b.ReasoningBlock?
  }

  lemma {:induction false} EncodesExactly(refusal: bool, content: seq<Block>)
    ensures EncodeBlocks(refusal, content).Some? <==> forall k :: 0 <= k < |content| ==> Encodable(content[k])
  {
    if content != [] {
      var init, last := content[..|content| - 1], content[|content| - 1];
      EncodesExactly(refusal, init);
      assert (forall k :: 0 <= k < |content| ==> Encodable(content[k])) <==>
             (forall k :: 0 <= k < |init| ==> Encodable(init[k])) && Encodable(last) by {
        assert forall k :: 0 <= k < |init| ==> content[k] == init[k];
      }
    }
  }

  /** Persisting succeeds if and only if the writes it makes are not refused and what it stores can be
      encoded; the conversation is written first, under a name. */
  lemma PersistSucceeds(store: Store, plan: Plan, r: Response, faults: Faults)
    ensures Persist(store, plan, r, faults).0 <==>
            (plan.active ==>
               && (plan.conversation.Some? ==> !faults.conversation && plan.conversation.value.id != "")
               && (plan.store ==>
                     && r.stop != Unknown && !faults.response
                     && forall k :: 0 <= k < |r.content| ==> Encodable(r.content[k])))
  {
    hide EncodeBlocks, Reply, AllPortable;
    EncodesExactly(r.stop == ContentFilter, r.content);
  }
}
