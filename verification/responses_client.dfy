/**
 A client that follows a Responses stream from its events alone, and the proof that whatever
 events the encoder is fed, what it writes is a stream this client accepts.
 */
module ResponsesClient {
  import opened Llm
  import opened ResponsesEncoder
  import Decimal

  /** An item as the client knows it: how it was announced and what its deltas add up to. */
  datatype Seen = Seen(item: OutputItem, buffer: string, finished: bool)

  /** What every snapshot of a response repeats. */
  datatype Head = Head(id: string, model: string, previousID: string, conversationID: string, store: bool)

  datatype View = View(next: nat, seen: seq<Seen>, text: string, terminal: Option<Status>, head: Option<Head>)

  const NOTHING := View(0, [], "", None, None)

  function HeadOf(r: Snapshot): Head {
    Head(r.id, r.model, r.previousID, r.conversationID, r.store)
  }

  /** The finished form of an item, built from its announcement and its deltas. */
  function Final(refusal: bool, s: Seen): OutputItem {
    match s.item
    case MessageOut(id, _, _) =>
      MessageOut(id, Completed, [if refusal then RefusalPart(s.buffer) else OutputText(s.buffer)])
    case CallOut(id, _, callID, name, _) => CallOut(id, Completed, callID, name, OrEmptyObject(s.buffer))
    case ReasoningOut(id, _, _) => ReasoningOut(id, Completed, [s.buffer])
  }

  function Shown(refusal: bool, s: Seen): OutputItem {
    if s.finished then Final(refusal, s) else s.item
  }

  predicate Blank(item: OutputItem) {
    match item
    case MessageOut(_, status, content) => status == InProgress && content == []
    case CallOut(_, status, _, _, arguments) => status == InProgress && arguments == ""
    case ReasoningOut(_, status, summary) => status == InProgress && summary == []
  }

  predicate Growing(v: View, itemID: string, k: nat) {
    k < |v.seen| && !v.seen[k].finished && v.seen[k].item.id == itemID && v.terminal in {None, Some(Failed)}
  }

  /** The snapshot lists exactly the items the client has, and exactly the text it has. */
  predicate Agrees(refusal: bool, v: View, r: Snapshot) {
    && |r.output| == |v.seen| && r.outputText == v.text
    && forall k :: 0 <= k < |v.seen| ==> r.output[k] == Shown(refusal, v.seen[k])
  }

  /** A later snapshot is of the same response as the first. */
  predicate Continues(refusal: bool, v: View, r: Snapshot) {
    Agrees(refusal, v, r) && v.head == Some(HeadOf(r))
  }

  predicate AllFinished(v: View) {
    forall k :: 0 <= k < |v.seen| ==> v.seen[k].finished
  }

  /** What the client checks before it takes an event. */
  predicate Takes(refusal: bool, v: View, w: Wire) {
    && w.sequence == v.next
    && match w.body
       case ResponseCreated(r) => v.next == 0 && r.status == InProgress && r.error.None? && Agrees(refusal, v, r)
       case ResponseInProgress(r) => v.next == 1 && r.status == InProgress && r.error.None? && Continues(refusal, v, r)
       case ItemAdded(k, item) =>
         && v.next >= 2 && v.terminal.None? && k == |v.seen| && Blank(item)
         && forall j :: 0 <= j < |v.seen| ==> v.seen[j].item.id != item.id
       case PartAdded(id, k, _) => Growing(v, id, k) && v.seen[k].item.MessageOut? && v.seen[k].buffer == ""
       case TextDeltaOut(id, k, _) => Growing(v, id, k) && v.seen[k].item.MessageOut? && !refusal
       case RefusalDeltaOut(id, k, _) => Growing(v, id, k) && v.seen[k].item.MessageOut? && refusal
       case TextDone(id, k, text) =>
         Growing(v, id, k) && v.seen[k].item.MessageOut? && !refusal && text == v.seen[k].buffer
       case RefusalDone(id, k, text) =>
         Growing(v, id, k) && v.seen[k].item.MessageOut? && refusal && text == v.seen[k].buffer
       case PartDone(id, k, part) =>
         && Growing(v, id, k) && v.seen[k].item.MessageOut?
         && part == (if refusal then RefusalPart(v.seen[k].buffer) else OutputText(v.seen[k].buffer))
       case ArgumentsDelta(id, k, _) => Growing(v, id, k) && v.seen[k].item.CallOut?
       case ArgumentsDone(id, k, arguments, name) =>
         && Growing(v, id, k) && v.seen[k].item.CallOut? && name == v.seen[k].item.name
         && arguments == OrEmptyObject(v.seen[k].buffer)
       case SummaryAdded(id, k) => Growing(v, id, k) && v.seen[k].item.ReasoningOut? && v.seen[k].buffer == ""
       case SummaryDelta(id, k, _) => Growing(v, id, k) && v.seen[k].item.ReasoningOut?
       case SummaryTextDone(id, k, text) =>
         Growing(v, id, k) && v.seen[k].item.ReasoningOut? && text == v.seen[k].buffer
       case SummaryDone(id, k, text) =>
         Growing(v, id, k) && v.seen[k].item.ReasoningOut? && text == v.seen[k].buffer
       case ItemDone(k, item) => Growing(v, item.id, k) && item == Final(refusal, v.seen[k])
       case ResponseCompleted(r) =>
         v.next >= 2 && v.terminal.None? && r.status == Completed && r.error.None? && AllFinished(v)
         && Continues(refusal, v, r)
       case ResponseIncomplete(r) =>
         v.next >= 2 && v.terminal.None? && r.status == Incomplete && r.error.None? && AllFinished(v)
         && Continues(refusal, v, r)
       case ResponseFailed(r) => v.next >= 2 && v.terminal.None? && r.status == Failed && r.error.Some? && Continues(refusal, v, r)
  }

  function Delta(v: View, k: nat, delta: string): View
    requires k < |v.seen|
  {
    v.(seen := v.seen[k := v.seen[k].(buffer := v.seen[k].buffer + delta)])
  }

  function Take(refusal: bool, v: View, w: Wire): View
    requires Takes(refusal, v, w)
  {
    var n := v.(next := v.next + 1);
    match w.body
    case ResponseCreated(r) => n.(head := Some(HeadOf(r)))
    case ItemAdded(_, item) => n.(seen := n.seen + [Seen(item, "", false)])
    case TextDeltaOut(_, k, delta) => Delta(n, k, delta).(text := n.text + delta)
    case RefusalDeltaOut(_, k, delta) => Delta(n, k, delta)
    case ArgumentsDelta(_, k, delta) => Delta(n, k, delta)
    case SummaryDelta(_, k, delta) => Delta(n, k, delta)
    case ItemDone(k, _) => n.(seen := n.seen[k := n.seen[k].(finished := true)])
    case ResponseCompleted(_) => n.(terminal := Some(Completed))
    case ResponseIncomplete(_) => n.(terminal := Some(Incomplete))
    case ResponseFailed(_) => n.(terminal := Some(Failed))
    case _ => n
  }

  function Follow(refusal: bool, stream: seq<Wire>): Option<View> {
    if stream == [] then Some(NOTHING)
    else
      match Follow(refusal, stream[..|stream| - 1])
      case None => None
      case Some(v) =>
        var w := stream[|stream| - 1];
        if Takes(refusal, v, w) then Some(Take(refusal, v, w)) else None
  }

  lemma FollowSnoc(refusal: bool, stream: seq<Wire>, w: Wire)
    requires Follow(refusal, stream).Some? && Takes(refusal, Follow(refusal, stream).value, w)
    ensures Follow(refusal, stream + [w]) == Some(Take(refusal, Follow(refusal, stream).value, w))
  {}

  // ---------------------------------------------------------------- the encoder's invariant

  function KindOf(item: OutputItem): Kind {
    match item
    case MessageOut(_, _, _) => TextKind
    case CallOut(_, _, _, _, _) => ToolKind
    case ReasoningOut(_, _, _) => ReasoningKind
  }

  /** An open block and the item it is writing. */
  predicate Linked(b: StreamBlock, v: View) {
    b.outputIndex < |v.seen| && v.seen[b.outputIndex] == Seen(Announced(b), b.buffer, false)
  }

  ghost predicate Owned(s: State, k: nat) {
    exists i :: i in s.blocks && s.blocks[i].outputIndex == k
  }

  ghost predicate Items(c: Config, s: State, v: View) {
    && |v.seen| == |s.output|
    && (forall k :: 0 <= k < |s.output| ==> s.output[k] == Shown(c.refusal, v.seen[k]))
    && (forall k :: 0 <= k < |s.output| ==> v.seen[k].item.id == ItemID(KindOf(v.seen[k].item), k))
  }

  ghost predicate Blocks(s: State, v: View) {
    && (forall i :: i in s.blocks ==> Linked(s.blocks[i], v))
    && (forall i, j :: i in s.blocks && j in s.blocks && i != j ==>
          s.blocks[i].outputIndex != s.blocks[j].outputIndex)
    && (forall k: nat :: k < |v.seen| && !v.seen[k].finished ==> Owned(s, k))
  }

  ghost predicate Phase(s: State, v: View) {
    && (s.started <==> v.next > 0)
    && (v.next == 0 || v.next >= 2)
    && (!s.started ==> !s.stopped && s.blocks == map[] && v == NOTHING && s.output == [] && s.allText == "")
    && (v.terminal.Some? ==> s.stopped && v.terminal.value != InProgress)
    && (s.stopped && v.terminal != Some(Failed) ==> s.blocks == map[])
  }

  ghost predicate Follows(c: Config, s: State, v: View) {
    && Follow(c.refusal, s.written) == Some(v)
    && v.next == s.sequence && v.text == s.allText
    && v.head == if s.started then Some(Head(s.id, s.model, c.previousID, c.conversationID, c.store)) else None
  }

  ghost predicate Inv(c: Config, s: State, v: View) {
    Follows(c, s, v) && Items(c, s, v) && Blocks(s, v) && Phase(s, v)
  }

  /** Writing an event the client takes. */
  lemma WriteTaken(c: Config, s: State, v: View, body: Body) returns (w: View)
    requires Follow(c.refusal, s.written) == Some(v) && v.next == s.sequence
    requires Takes(c.refusal, v, Wire(s.sequence, body))
    ensures w == Take(c.refusal, v, Wire(s.sequence, body))
    ensures Follow(c.refusal, Write(s, body).written) == Some(w) && w.next == Write(s, body).sequence
  {
    FollowSnoc(c.refusal, s.written, Wire(s.sequence, body));
    w := Take(c.refusal, v, Wire(s.sequence, body));
  }

  lemma ItemIDsDiffer(a: Kind, m: nat, b: Kind, n: nat)
    requires m != n
    ensures ItemID(a, m) != ItemID(b, n)
  {
    if ItemID(a, m) == ItemID(b, n) {
      assert ItemID(a, m)[0] == Prefix(a)[0] && ItemID(b, n)[0] == Prefix(b)[0];
      assert a == b;
      Decimal.PrefixedInjective(Prefix(a), m, n);
    }
  }

  lemma StartInv(c: Config, s: State, v: View, id: string, model: string) returns (w: View)
    requires Inv(c, s, v)
    ensures Inv(c, StartResponse(c, s, id, model).state, w)
  {
    hide Follow;
    w := v;
    if !s.started {
      var t := s.(started := true, id := NormalizeID(id), model := model);
      w := WriteTaken(c, t, v, ResponseCreated(Snap(c, t, InProgress)));
      var u := Write(t, ResponseCreated(Snap(c, t, InProgress)));
      w := WriteTaken(c, u, w, ResponseInProgress(Snap(c, u, InProgress)));
    }
  }

  lemma OpenItems(c: Config, s: State, v: View, t: State, w: View, b: StreamBlock)
    requires Items(c, s, v) && b.itemID == ItemID(b.kind, |s.output|)
    requires w.seen == v.seen + [Seen(Announced(b), "", false)] && t.output == s.output + [Announced(b)]
    ensures Items(c, t, w)
  {
  }

  lemma OpenBlocks(s: State, v: View, t: State, w: View, index: int, b: StreamBlock)
    requires Blocks(s, v) && index !in s.blocks && b.outputIndex == |v.seen| && b.buffer == ""
    requires w.seen == v.seen + [Seen(Announced(b), "", false)] && t.blocks == s.blocks[index := b]
    ensures Blocks(t, w)
  {
    forall k: nat | k < |w.seen| && !w.seen[k].finished ensures Owned(t, k) {
      if k < |v.seen| {
        assert Owned(s, k);
        var i :| i in s.blocks && s.blocks[i].outputIndex == k;
        assert i in t.blocks && t.blocks[i].outputIndex == k;
      } else {
        assert t.blocks[index].outputIndex == k;
      }
    }
  }

  lemma OpenInv(c: Config, s: State, v: View, index: int, b: StreamBlock) returns (w: View)
    requires Inv(c, s, v) && s.started && !s.stopped && index !in s.blocks
    requires b.outputIndex == |s.output| && b.itemID == ItemID(b.kind, |s.output|) && b.buffer == ""
    ensures Inv(c, OpenBlock(s, index, b), w) && w.seen == v.seen + [Seen(Announced(b), "", false)]
    ensures w.terminal == v.terminal
  {
    hide Follow;
    var n := |s.output|;
    forall j | 0 <= j < n ensures v.seen[j].item.id != Announced(b).id {
      ItemIDsDiffer(KindOf(v.seen[j].item), j, b.kind, n);
    }
    var t := s.(blocks := s.blocks[index := b], output := s.output + [Announced(b)]);
    w := WriteTaken(c, t, v, ItemAdded(n, Announced(b)));
    var u := OpenBlock(s, index, b);
    OpenItems(c, s, v, u, w, b);
    OpenBlocks(s, v, u, w, index, b);
  }

  lemma NoteInv(c: Config, s: State, v: View, body: Body) returns (w: View)
    requires Inv(c, s, v) && s.started && Takes(c.refusal, v, Wire(s.sequence, body))
    requires body.PartAdded? || body.SummaryAdded?
    ensures Inv(c, Write(s, body), w) && w == v.(next := v.next + 1)
  {
    hide Follow;
    w := WriteTaken(c, s, v, body);
    var t := Write(s, body);
    forall k: nat | k < |w.seen| && !w.seen[k].finished ensures Owned(t, k) {
      assert Owned(s, k);
    }
  }

  lemma GrowInv(c: Config, s: State, v: View, index: int, delta: string, text: string, body: Body) returns (w: View)
    requires Inv(c, s, v) && index in s.blocks
    requires Takes(c.refusal, v, Wire(s.sequence, body))
    requires var k := s.blocks[index].outputIndex;
             k < |v.seen| &&
             Take(c.refusal, v, Wire(s.sequence, body)) == Delta(v.(next := v.next + 1), k, delta).(text := text)
    ensures Inv(c, Write(Grow(s, index, delta).(allText := text), body), w) && w.terminal == v.terminal
  {
    hide Follow, Blocks;
    var g := Grow(s, index, delta).(allText := text);
    w := WriteTaken(c, g, v, body);
    var t := Write(g, body);
    GrowBlocks(s, v, t, w, index, delta);
  }

  lemma GrowBlocks(s: State, v: View, t: State, w: View, index: int, delta: string)
    requires Blocks(s, v) && index in s.blocks && s.blocks[index].outputIndex < |v.seen|
    requires w.seen == Delta(v, s.blocks[index].outputIndex, delta).seen && t.blocks == Grow(s, index, delta).blocks
    ensures Blocks(t, w)
  {
    forall k: nat | k < |w.seen| && !w.seen[k].finished ensures Owned(t, k) {
      assert Owned(s, k);
      var i :| i in s.blocks && s.blocks[i].outputIndex == k;
      assert i in t.blocks && t.blocks[i].outputIndex == k;
    }
  }

  lemma TextInv(c: Config, s: State, v: View, index: int, text: string) returns (w: View)
    requires Inv(c, s, v) && HasOpen(s, index, TextKind)
    ensures Inv(c, AddText(c, s, index, text), w)
  {
    hide Follow;
    var b := s.blocks[index];
    assert Linked(b, v);
    if c.refusal {
      w := GrowInv(c, s, v, index, text, s.allText, RefusalDeltaOut(b.itemID, b.outputIndex, text));
    } else {
      w := GrowInv(c, s, v, index, text, s.allText + text, TextDeltaOut(b.itemID, b.outputIndex, text));
    }
  }

  lemma ThinkingInv(c: Config, s: State, v: View, index: int, thinking: string) returns (w: View)
    requires Inv(c, s, v) && HasOpen(s, index, ReasoningKind)
    ensures Inv(c, AddThinking(s, index, thinking), w)
  {
    hide Follow;
    var b := s.blocks[index];
    assert Linked(b, v);
    w := v;
    if thinking != "" {
      w := GrowInv(c, s, v, index, thinking, s.allText, SummaryDelta(b.itemID, b.outputIndex, thinking));
    }
  }

  lemma ArgumentsInv(c: Config, s: State, v: View, index: int, delta: Option<ToolDelta>) returns (w: View)
    requires Inv(c, s, v)
    ensures Inv(c, ToolDeltaStep(s, index, delta).state, w)
  {
    hide Follow;
    w := v;
    if HasOpen(s, index, ToolKind) && delta.Some? && delta.value.arguments != "" {
      var b := s.blocks[index];
      assert Linked(b, v);
      var d := delta.value.arguments;
      w := GrowInv(c, s, v, index, d, s.allText, ArgumentsDelta(b.itemID, b.outputIndex, d));
    }
  }

  lemma StartContentInv(c: Config, s: State, v: View, index: int, block: Llm.Block) returns (w: View)
    requires Inv(c, s, v)
    ensures Inv(c, StartContent(c, s, index, block).state, w)
  {
    hide Follow;
    w := v;
    if s.started && !s.stopped && index !in s.blocks {
      var n := |s.output|;
      if block.TextBlock? {
        var b := StreamBlock(TextKind, n, ItemID(TextKind, n), "", "", "");
        w := OpenInv(c, s, v, index, b);
        var body := PartAdded(b.itemID, n, TextPart(c, block.text));
        w := NoteInv(c, OpenBlock(s, index, b), w, body);
        if block.text != "" {
          w := TextInv(c, Write(OpenBlock(s, index, b), body), w, index, block.text);
        }
      } else if block.ReasoningBlock? && block.signature == "" && block.redacted == "" {
        var b := StreamBlock(ReasoningKind, n, ItemID(ReasoningKind, n), "", "", "");
        w := OpenInv(c, s, v, index, b);
        w := NoteInv(c, OpenBlock(s, index, b), w, SummaryAdded(b.itemID, n));
        w := ThinkingInv(c, Write(OpenBlock(s, index, b), SummaryAdded(b.itemID, n)), w, index, block.thinking);
      }
    }
  }

  lemma StartToolInv(c: Config, s: State, v: View, index: int, block: Llm.Block) returns (w: View)
    requires Inv(c, s, v)
    ensures Inv(c, StartToolCall(s, index, block).state, w)
  {
    hide Follow;
    w := v;
    if s.started && !s.stopped && index !in s.blocks && block.ToolCallBlock? {
      var n := |s.output|;
      w := OpenInv(c, s, v, index, StreamBlock(ToolKind, n, ItemID(ToolKind, n), block.id, block.name, ""));
    }
  }

  lemma WriteAllTwo(s: State, a: Body, b: Body)
    ensures WriteAll(s, [a]) == Write(s, a)
    ensures WriteAll(s, [a, b]) == Write(Write(s, a), b)
  {
    assert [a, b][1..] == [b];
    assert WriteAll(Write(s, a), [b]) == Write(Write(s, a), b);
  }

  lemma ClosingStep(c: Config, s: State, v: View, b: StreamBlock, body: Body)
    requires Follow(c.refusal, s.written) == Some(v) && v.next == s.sequence
    requires Linked(b, v) && v.terminal in {None, Some(Failed)} && body in ClosingEvents(c, b)
    ensures Follow(c.refusal, Write(s, body).written) == Some(v.(next := v.next + 1))
  {
    hide Follow;
    var w := WriteTaken(c, s, v, body);
  }

  /** The closing events of a linked block are all taken and leave its item as it is. */
  lemma ClosingTaken(c: Config, s: State, v: View, b: StreamBlock) returns (w: View)
    requires Follow(c.refusal, s.written) == Some(v) && v.next == s.sequence
    requires Linked(b, v) && v.terminal in {None, Some(Failed)}
    ensures var t := WriteAll(s, ClosingEvents(c, b));
            && Follow(c.refusal, t.written) == Some(w) && w.next == t.sequence && w == v.(next := w.next)
            && w.next > v.next && t == s.(sequence := t.sequence, written := t.written)
  {
    hide Follow;
    var events := ClosingEvents(c, b);
    ClosingStep(c, s, v, b, events[0]);
    w := v.(next := v.next + 1);
    if b.kind == ToolKind {
      WriteAllTwo(s, events[0], events[0]);
      assert events == [events[0]];
    } else {
      WriteAllTwo(s, events[0], events[1]);
      assert events == [events[0], events[1]];
      ClosingStep(c, Write(s, events[0]), w, b, events[1]);
      w := v.(next := v.next + 2);
    }
  }

  lemma CloseBlocks(s: State, v: View, t: State, w: View, index: int)
    requires Blocks(s, v) && index in s.blocks && s.blocks[index].outputIndex < |v.seen|
    requires var k := s.blocks[index].outputIndex; w.seen == v.seen[k := v.seen[k].(finished := true)]
    requires t.blocks == s.blocks - {index}
    ensures Blocks(t, w)
  {
    forall k: nat | k < |w.seen| && !w.seen[k].finished ensures Owned(t, k) {
      assert Owned(s, k);
      var i :| i in s.blocks && s.blocks[i].outputIndex == k;
      assert i in t.blocks && t.blocks[i].outputIndex == k;
    }
  }

  lemma SameLength(c: Config, s: State, v: View)
    requires Items(c, s, v)
    ensures |s.output| == |v.seen|
  {
  }

  lemma StopContentInv(c: Config, s: State, v: View, index: int) returns (w: View)
    requires Inv(c, s, v)
    ensures Inv(c, StopContent(c, s, index).state, w)
    ensures StopContent(c, s, index).ok <==> index in s.blocks
  {
    hide Follow, ClosingEvents, WriteAll, Items;
    w := v;
    if index in s.blocks {
      var b := s.blocks[index];
      var k := b.outputIndex;
      assert Linked(b, v) && |s.output| == |v.seen| by {
        assert Blocks(s, v);
        SameLength(c, s, v);
      }
      var r := s.(blocks := s.blocks - {index});
      w := ClosingTaken(c, r, v, b);
      var t := WriteAll(r, ClosingEvents(c, b));
      assert Final(c.refusal, w.seen[k]) == Finished(c, b);
      var u := t.(output := t.output[k := Finished(c, b)]);
      w := WriteTaken(c, u, w, ItemDone(k, Finished(c, b)));
      var z := Write(u, ItemDone(k, Finished(c, b)));
      assert w.seen == v.seen[k := v.seen[k].(finished := true)];
      CloseBlocks(s, v, z, w, index);
      CloseItems(c, s, v, z, w, k, b);
    }
  }

  lemma CloseItems(c: Config, s: State, v: View, t: State, w: View, k: nat, b: StreamBlock)
    requires Items(c, s, v) && k < |v.seen| && v.seen[k] == Seen(Announced(b), b.buffer, false)
    requires w.seen == v.seen[k := v.seen[k].(finished := true)] && t.output == s.output[k := Finished(c, b)]
    ensures Items(c, t, w)
  {
  }

  lemma StopResponseInv(c: Config, s: State, v: View, reason: StopReason) returns (w: View)
    requires Inv(c, s, v)
    ensures Inv(c, StopResponse(c, s, reason).state, w)
    ensures StopResponse(c, s, reason).ok ==> w.terminal in {Some(Completed), Some(Incomplete)}
  {
    hide Follow;
    w := v;
    if s.started && !s.stopped && s.blocks == map[] {
      forall k: nat | k < |v.seen| ensures v.seen[k].finished {
        assert !Owned(s, k);
      }
      var t := s.(stopped := true);
      if reason == MaxTokens {
        w := WriteTaken(c, t, v, ResponseIncomplete(Snap(c, t, Incomplete)));
      } else if StopResponse(c, s, reason).ok {
        w := WriteTaken(c, t, v, ResponseCompleted(Snap(c, t, Completed)));
      }
    }
  }

  lemma FailInv(c: Config, s: State, v: View, error: Option<StreamError>) returns (w: View)
    requires Inv(c, s, v)
    ensures Inv(c, FailResponse(c, s, error).state, w)
  {
    hide Follow;
    w := v;
    if s.started && !s.stopped && error.Some? {
      var t := s.(stopped := true);
      var code := if error.value.code == "" then "server_error" else error.value.code;
      w := WriteTaken(c, t, v, ResponseFailed(Snap(c, t, Failed).(error := Some((code, error.value.message)))));
      forall k: nat | k < |w.seen| && !w.seen[k].finished
        ensures Owned(FailResponse(c, s, error).state, k)
      {
        assert Owned(s, k);
      }
    }
  }

  lemma EncodeInv(c: Config, s: State, v: View, e: Event) returns (w: View)
    requires Inv(c, s, v)
    ensures Inv(c, Encode(c, s, e).state, w)
  {
    hide Follow;
    w := v;
    match e
    case ResponseStart(id, model) => w := StartInv(c, s, v, id, model);
    case ContentStart(index, block) => w := StartContentInv(c, s, v, index, block);
    case TextDelta(index, text) =>
      if HasOpen(s, index, TextKind) {
        w := TextInv(c, s, v, index, text);
      }
    case ReasoningDelta(index, thinking) =>
      if HasOpen(s, index, ReasoningKind) {
        w := ThinkingInv(c, s, v, index, thinking);
      }
    case ToolCallStart(index, block) => w := StartToolInv(c, s, v, index, block);
    case ToolCallDelta(index, delta) => w := ArgumentsInv(c, s, v, index, delta);
    case ContentStop(index) => w := StopContentInv(c, s, v, index);
    case UsageReport(usage) =>
      var t := Encode(c, s, e).state;
      forall k: nat | k < |v.seen| && !v.seen[k].finished ensures Owned(t, k) {
        assert Owned(s, k);
      }
    case ResponseStop(reason, _) => w := StopResponseInv(c, s, v, reason);
    case Failure(error) => w := FailInv(c, s, v, error);
    case AudioDelta(_, _, _) =>
  }

  /** For every event sequence whatsoever, accepted or not, what was written is a stream the
      client follows, and the client's view is the encoder's own state. */
  lemma {:induction false} EncoderInvariant(c: Config, events: seq<Event>)
    ensures Follow(c.refusal, EncodeAll(c, events).written).Some?
    ensures Inv(c, EncodeAll(c, events), Follow(c.refusal, EncodeAll(c, events).written).value)
  {
    if events != [] {
      var before := EncodeAll(c, events[..|events| - 1]);
      EncoderInvariant(c, events[..|events| - 1]);
      var w := EncodeInv(c, before, Follow(c.refusal, before.written).value, events[|events| - 1]);
    }
  }

  lemma {:induction false} UnstartedUntilStart(c: Config, events: seq<Event>)
    ensures EncodeAll(c, events).started <==> exists k :: 0 <= k < |events| && events[k].ResponseStart?
  {
    if events != [] {
      var before, e := events[..|events| - 1], events[|events| - 1];
      UnstartedUntilStart(c, before);
      KeepsName(c, EncodeAll(c, before), e);
      assert forall k :: 0 <= k < |before| ==> before[k] == events[k];
    }
  }

  lemma KeepsName(c: Config, s: State, e: Event)
    ensures var t := Encode(c, s, e).state;
            && (t.started <==> s.started || e.ResponseStart?)
            && (s.started ==> t.id == s.id && t.model == s.model)
            && (!s.started && e.ResponseStart? ==> t.id == NormalizeID(e.id) && t.model == e.model)
  {
    hide NormalizeID, ClosingEvents, Finished;
    if e.ContentStop? && e.index in s.blocks {
      WriteAllKeeps(s.(blocks := s.blocks - {e.index}), ClosingEvents(c, s.blocks[e.index]));
    }
  }

  /** Every snapshot of a stream is of the response that the first start names, whatever is started later. */
  lemma {:induction false} FirstStartNames(c: Config, events: seq<Event>, k: nat)
    requires k < |events| && events[k].ResponseStart? && forall j :: 0 <= j < k ==> !events[j].ResponseStart?
    ensures EncodeAll(c, events).id == NormalizeID(events[k].id) && EncodeAll(c, events).model == events[k].model
    ensures Follow(c.refusal, EncodeAll(c, events).written).Some?
    ensures Follow(c.refusal, EncodeAll(c, events).written).value.head ==
            Some(Head(NormalizeID(events[k].id), events[k].model, c.previousID, c.conversationID, c.store))
  {
    hide Encode, Follow, NormalizeID;
    var before, e := events[..|events| - 1], events[|events| - 1];
    UnstartedUntilStart(c, before);
    UnstartedUntilStart(c, events);
    KeepsName(c, EncodeAll(c, before), e);
    if k < |events| - 1 {
      FirstStartNames(c, before, k);
    }
    EncoderInvariant(c, events);
  }

  // ---------------------------------------------------------------- what the client can rely on

  predicate Terminal(body: Body) {
    body.ResponseCompleted? || body.ResponseIncomplete? || body.ResponseFailed?
  }

  lemma {:induction false} FollowPrefix(refusal: bool, stream: seq<Wire>, n: nat)
    requires n <= |stream| && Follow(refusal, stream).Some?
    ensures Follow(refusal, stream[..n]).Some?
  {
    if n < |stream| {
      assert stream[..|stream| - 1][..n] == stream[..n];
      FollowPrefix(refusal, stream[..|stream| - 1], n);
    } else {
      assert stream[..n] == stream;
    }
  }

  lemma {:induction false} FollowedNumbering(refusal: bool, stream: seq<Wire>)
    requires Follow(refusal, stream).Some?
    ensures Follow(refusal, stream).value.next == |stream|
    ensures forall k :: 0 <= k < |stream| ==> stream[k].sequence == k
  {
    hide Takes, Take;
    if stream != [] {
      FollowedNumbering(refusal, stream[..|stream| - 1]);
      TakeNumbers(refusal, Follow(refusal, stream[..|stream| - 1]).value, stream[|stream| - 1]);
    }
  }

  lemma TakeNumbers(refusal: bool, v: View, w: Wire)
    requires Takes(refusal, v, w)
    ensures w.sequence == v.next && Take(refusal, v, w).next == v.next + 1
  {
  }

  function StatusOf(body: Body): Option<Status> {
    match body
    case ResponseCompleted(_) => Some(Completed)
    case ResponseIncomplete(_) => Some(Incomplete)
    case ResponseFailed(_) => Some(Failed)
    case _ => None
  }

  lemma TakeTerminal(refusal: bool, v: View, w: Wire)
    requires Takes(refusal, v, w) && (v.terminal.Some? ==> v.next >= 2)
    ensures Terminal(w.body) ==> v.terminal.None? && Take(refusal, v, w).terminal == StatusOf(w.body)
    ensures !Terminal(w.body) ==> Take(refusal, v, w).terminal == v.terminal
    ensures v.terminal in {None, Some(Failed)}
    ensures Take(refusal, v, w).terminal.Some? ==> v.next >= 2
    ensures Take(refusal, v, w).next == v.next + 1
  {
  }

  lemma {:induction false} TerminalLate(refusal: bool, stream: seq<Wire>)
    requires Follow(refusal, stream).Some? && Follow(refusal, stream).value.terminal.Some?
    ensures Follow(refusal, stream).value.next >= 2
  {}

  /** Where the terminal status of a view comes from. */
  lemma {:induction false} TerminalWritten(refusal: bool, stream: seq<Wire>, j: nat)
    requires Follow(refusal, stream).Some? && j < |stream| && Terminal(stream[j].body)
    ensures Follow(refusal, stream).value.terminal == StatusOf(stream[j].body)
    ensures !stream[j].body.ResponseFailed? ==> j == |stream| - 1
  {
    hide Takes, Take;
    var last := |stream| - 1;
    var v := Follow(refusal, stream[..last]).value;
    if j < last {
      assert stream[..last][j] == stream[j];
      TerminalWritten(refusal, stream[..last], j);
      TerminalLate(refusal, stream[..last]);
      TakeTerminal(refusal, v, stream[last]);
    } else {
      if v.terminal.Some? {
        TerminalLate(refusal, stream[..last]);
      }
      TakeTerminal(refusal, v, stream[last]);
    }
  }

  /** At most one terminal event is written, and nothing at all after completion or truncation. */
  lemma OneTerminal(refusal: bool, stream: seq<Wire>, j: nat, k: nat)
    requires Follow(refusal, stream).Some? && j < k < |stream| && Terminal(stream[j].body)
    ensures stream[j].body.ResponseFailed? && !Terminal(stream[k].body)
  {
    hide Takes, Take;
    TerminalWritten(refusal, stream, j);
    FollowPrefix(refusal, stream, k + 1);
    assert stream[..k + 1][..k] == stream[..k];
    FollowPrefix(refusal, stream, k);
    var v := Follow(refusal, stream[..k]).value;
    TerminalWritten(refusal, stream[..k], j);
    TerminalLate(refusal, stream[..k]);
    TakeTerminal(refusal, v, stream[k]);
  }

  // ---------------------------------------------------------------- a failed response

  /** What a client is shown of an upstream error: its code, if it has one, and its message. */
  predicate ShowsError(body: Body, error: StreamError) {
    && body.ResponseFailed? && body.response.error.Some?
    && body.response.error.value.0 == (if error.code == "" then "server_error" else error.code)
    && body.response.error.value.1 == error.message
  }

  /** An error in a running response writes exactly one further event, which shows it and everything so far,
      and ends the response; at any other time it writes nothing and is refused. */
  lemma ErrorShown(c: Config, events: seq<Event>, error: StreamError)
    ensures var s := EncodeAll(c, events);
            var t := EncodeAll(c, events + [Failure(Some(error))]);
            var running := s.started && !s.stopped;
            && (Encode(c, s, Failure(Some(error))).ok <==> running)
            && (!running ==> t.written == s.written)
            && (running ==>
                  && |t.written| == |s.written| + 1 && t.written[..|s.written|] == s.written
                  && t.stopped && ShowsError(t.written[|s.written|].body, error)
                  && var r := t.written[|s.written|].body.response;
                     r.id == s.id && r.model == s.model && r.output == s.output && r.outputText == s.allText)
  {
    assert (events + [Failure(Some(error))])[..|events|] == events;
  }

  // ---------------------------------------------------------------- done means everything streamed

  function PieceAt(body: Body, k: nat): string {
    match body
    case TextDeltaOut(_, n, delta) => if n == k then delta else ""
    case RefusalDeltaOut(_, n, delta) => if n == k then delta else ""
    case ArgumentsDelta(_, n, delta) => if n == k then delta else ""
    case SummaryDelta(_, n, delta) => if n == k then delta else ""
    case _ => ""
  }

  /** All deltas of output item `k`, joined. */
  function DeltasAt(stream: seq<Wire>, k: nat): string {
    if stream == [] then "" else DeltasAt(stream[..|stream| - 1], k) + PieceAt(stream[|stream| - 1].body, k)
  }

  lemma {:induction false} BufferIsDeltas(refusal: bool, stream: seq<Wire>, k: nat)
    requires Follow(refusal, stream).Some?
    ensures var v := Follow(refusal, stream).value;
            DeltasAt(stream, k) == if k < |v.seen| then v.seen[k].buffer else ""
  {
    if stream != [] {
      var before := stream[..|stream| - 1];
      BufferIsDeltas(refusal, before, k);
      TakeBuffer(refusal, Follow(refusal, before).value, stream[|stream| - 1], k);
    }
  }

  lemma TakeBuffer(refusal: bool, v: View, w: Wire, k: nat)
    requires Takes(refusal, v, w)
    ensures var n := Take(refusal, v, w);
            (if k < |n.seen| then n.seen[k].buffer else "") ==
            (if k < |v.seen| then v.seen[k].buffer else "") + PieceAt(w.body, k)
  {}

  /** In everything the encoder writes, whatever it is fed: a done text, refusal, summary or argument list
      is the concatenation of that item's deltas before it, `{}` if a call had none. */
  lemma DoneIsConcatenation(c: Config, events: seq<Event>, j: nat)
    requires j < |EncodeAll(c, events).written|
    ensures var stream := EncodeAll(c, events).written;
            match stream[j].body
            case TextDone(_, k, text) => text == DeltasAt(stream[..j], k)
            case RefusalDone(_, k, text) => text == DeltasAt(stream[..j], k)
            case ArgumentsDone(_, k, arguments, _) => arguments == OrEmptyObject(DeltasAt(stream[..j], k))
            case SummaryTextDone(_, k, text) => text == DeltasAt(stream[..j], k)
            case _ => true
  {
    hide Follow, DeltasAt, EncodeAll;
    var stream := EncodeAll(c, events).written;
    EncoderInvariant(c, events);
    FollowPrefix(c.refusal, stream, j + 1);
    FollowPrefix(c.refusal, stream, j);
    FollowedAt(c.refusal, stream, j);
    var body := stream[j].body;
    if body.TextDone? || body.RefusalDone? || body.ArgumentsDone? || body.SummaryTextDone? {
      BufferIsDeltas(c.refusal, stream[..j], body.outputIndex);
    }
  }

  lemma FollowedAt(refusal: bool, stream: seq<Wire>, j: nat)
    requires j < |stream| && Follow(refusal, stream[..j + 1]).Some? && Follow(refusal, stream[..j]).Some?
    ensures Takes(refusal, Follow(refusal, stream[..j]).value, stream[j])
  {
    assert stream[..j + 1][..j] == stream[..j];
  }

  // ---------------------------------------------------------------- text announced with its part

  /** The part announced for a message carries no text, so its deltas are all there is. */
  predicate BlankPart(body: Body) {
    body.PartAdded? ==> body.part == OutputText("") || body.part == RefusalPart("")
  }

  ghost predicate BlankParts(stream: seq<Wire>) {
    forall k :: 0 <= k < |stream| ==> BlankPart(stream[k].body)
  }

  /** Whether the event opens a text block that starts with text. */
  predicate StartsWithText(c: Config, s: State, e: Event) {
    e.ContentStart? && e.block.TextBlock? && e.block.text != "" && StartContent(c, s, e.index, e.block).ok
  }

  lemma BlankMore(s: State, body: Body)
    ensures BlankParts(Write(s, body).written) <==> BlankParts(s.written) && BlankPart(body)
  {
    var stream := Write(s, body).written;
    assert stream[|s.written|].body == body && forall k :: 0 <= k < |s.written| ==> stream[k] == s.written[k];
  }

  lemma {:induction false} BlankAll(s: State, bodies: seq<Body>)
    requires forall k :: 0 <= k < |bodies| ==> BlankPart(bodies[k])
    ensures BlankParts(WriteAll(s, bodies).written) <==> BlankParts(s.written)
    decreases |bodies|
  {
    hide BlankParts, BlankPart;
    if bodies != [] {
      BlankMore(s, bodies[0]);
      BlankAll(Write(s, bodies[0]), bodies[1..]);
    }
  }

  lemma StartBlank(c: Config, s: State, index: int, block: Llm.Block)
    ensures BlankParts(StartContent(c, s, index, block).state.written) <==>
            BlankParts(s.written) && !StartsWithText(c, s, ContentStart(index, block))
  {
    hide BlankParts;
    var n := |s.output|;
    if s.started && !s.stopped && index !in s.blocks && block.TextBlock? {
      var b := StreamBlock(TextKind, n, ItemID(TextKind, n), "", "", "");
      BlankMore(s.(blocks := s.blocks[index := b], output := s.output + [Announced(b)]), ItemAdded(n, Announced(b)));
      var body := PartAdded(b.itemID, n, TextPart(c, block.text));
      BlankMore(OpenBlock(s, index, b), body);
      if block.text != "" {
        AddBlank(c, Write(OpenBlock(s, index, b), body), index, block.text);
      }
    } else if s.started && !s.stopped && index !in s.blocks && block.ReasoningBlock? && block.signature == ""
              && block.redacted == "" {
      var b := StreamBlock(ReasoningKind, n, ItemID(ReasoningKind, n), "", "", "");
      BlankMore(s.(blocks := s.blocks[index := b], output := s.output + [Announced(b)]), ItemAdded(n, Announced(b)));
      BlankMore(OpenBlock(s, index, b), SummaryAdded(b.itemID, n));
      ThinkBlank(Write(OpenBlock(s, index, b), SummaryAdded(b.itemID, n)), index, block.thinking);
    }
  }

  lemma AddBlank(c: Config, s: State, index: int, text: string)
    requires index in s.blocks
    ensures BlankParts(AddText(c, s, index, text).written) <==> BlankParts(s.written)
  {
    hide BlankParts;
    var b := s.blocks[index];
    BlankMore(Grow(s, index, text), RefusalDeltaOut(b.itemID, b.outputIndex, text));
    BlankMore(Grow(s, index, text).(allText := s.allText + text), TextDeltaOut(b.itemID, b.outputIndex, text));
  }

  lemma ThinkBlank(s: State, index: int, thinking: string)
    requires index in s.blocks
    ensures BlankParts(AddThinking(s, index, thinking).written) <==> BlankParts(s.written)
  {
    hide BlankParts;
    var b := s.blocks[index];
    BlankMore(Grow(s, index, thinking), SummaryDelta(b.itemID, b.outputIndex, thinking));
  }

  lemma StopBlank(c: Config, s: State, index: int)
    ensures BlankParts(StopContent(c, s, index).state.written) <==> BlankParts(s.written)
  {
    hide BlankParts, WriteAll;
    if index in s.blocks {
      var b := s.blocks[index];
      BlankAll(s.(blocks := s.blocks - {index}), ClosingEvents(c, b));
      var t := WriteAll(s.(blocks := s.blocks - {index}), ClosingEvents(c, b));
      if b.outputIndex < |t.output| {
        BlankMore(t.(output := t.output[b.outputIndex := Finished(c, b)]), ItemDone(b.outputIndex, Finished(c, b)));
      }
    }
  }

  /** The remaining events announce no parts. */
  lemma OtherBlank(c: Config, s: State, e: Event)
    requires !e.ContentStart? && !e.ContentStop? && !e.TextDelta? && !e.ReasoningDelta?
    ensures BlankParts(Encode(c, s, e).state.written) <==> BlankParts(s.written)
  {
    var t := Encode(c, s, e).state;
    assert s.written <= t.written;
    assert forall k :: 0 <= k < |s.written| ==> t.written[k] == s.written[k];
    assert forall k :: |s.written| <= k < |t.written| ==> BlankPart(t.written[k].body);
  }

  lemma EventBlank(c: Config, s: State, e: Event)
    ensures BlankParts(Encode(c, s, e).state.written) <==> BlankParts(s.written) && !StartsWithText(c, s, e)
  {
    hide BlankParts, StartContent, StopContent, AddText, AddThinking;
    match e
    case ContentStart(index, block) => StartBlank(c, s, index, block);
    case ContentStop(index) => StopBlank(c, s, index);
    case TextDelta(index, text) =>
      if HasOpen(s, index, TextKind) {
        AddBlank(c, s, index, text);
      }
    case ReasoningDelta(index, thinking) =>
      if HasOpen(s, index, ReasoningKind) {
        ThinkBlank(s, index, thinking);
      }
    case _ => OtherBlank(c, s, e);
  }

  /** The parts announced are all blank, so that no text is shown both there and as a delta, if and only if
      no text block opened with text. */
  lemma {:induction false} AnnouncedBlank(c: Config, events: seq<Event>)
    ensures BlankParts(EncodeAll(c, events).written) <==>
            forall k :: 0 <= k < |events| ==> !StartsWithText(c, EncodeAll(c, events[..k]), events[k])
  {
    hide Encode, BlankParts, StartsWithText;
    if events == [] {
      NothingAnnounced(c);
    } else {
      var init, last := events[..|events| - 1], |events| - 1;
      AnnouncedBlank(c, init);
      EventBlank(c, EncodeAll(c, init), events[last]);
      assert forall k :: 0 <= k < last ==> events[..k] == init[..k] && events[k] == init[k];
      assert events[..last] == init;
    }
  }

  lemma NothingAnnounced(c: Config)
    ensures BlankParts(EncodeAll(c, []).written)
  {
  }
}
