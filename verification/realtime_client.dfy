/** What a Realtime client can rely on in everything the server encoder writes. */
module RealtimeClient {
  import opened Llm
  import Decimal
  import L = LiveDecoder
  import opened RealtimeEncoder

  // ---------------------------------------------------------------- identifiers

  /** The identifiers an event is the first to show, in the order they were drawn. */
  function Introduced(body: Body): seq<string> {
    match body
    case ResponseCreated(response) => [response.id]
    case ItemAdded(_, _, item) => [item.id]
    case _ => []
  }

  function Issued(written: seq<Wire>): seq<string> {
    if written == [] then []
    else
      var last := written[|written| - 1];
      Issued(written[..|written| - 1]) + Introduced(last.body) + [last.eventID]
  }

  predicate Generated(id: string, n: nat) {
    id == GeneratedID(EVENT, n) || id == GeneratedID(ITEM, n) || id == GeneratedID(RESPONSE, n)
  }

  lemma GeneratedOnce(id: string, m: nat, n: nat)
    requires Generated(id, m) && Generated(id, n)
    ensures m == n
  {
    hide Decimal.Print;
    assert EVENT[0] != ITEM[0] && EVENT[0] != RESPONSE[0] && ITEM[0] != RESPONSE[0];
    forall prefix, k: nat | prefix in {EVENT, ITEM, RESPONSE} ensures GeneratedID(prefix, k)[0] == prefix[0] {
    }
    if id == GeneratedID(EVENT, m) {
      Decimal.PrefixedInjective(EVENT, m, n);
    } else if id == GeneratedID(ITEM, m) {
      Decimal.PrefixedInjective(ITEM, m, n);
    } else {
      Decimal.PrefixedInjective(RESPONSE, m, n);
    }
  }

  /** The k-th identifier issued carries the number k. */
  ghost predicate InOrder(ids: seq<string>, n: nat) {
    |ids| == n && forall k :: 0 <= k < |ids| ==> Generated(ids[k], k + 1)
  }

  lemma SendInOrder(e: State, body: Body)
    requires InOrder(Issued(e.written) + Introduced(body), e.sequence)
    ensures InOrder(Issued(Send(e, body).written), Send(e, body).sequence)
  {}

  predicate NamesNoResponse(event: Event) {
    event.ResponseStart? ==> event.id == ""
  }

  lemma PlainSendInOrder(e: State, body: Body)
    requires InOrder(Issued(e.written), e.sequence) && Introduced(body) == []
    ensures InOrder(Issued(Send(e, body).written), Send(e, body).sequence)
  {}

  lemma AnnounceInOrder(e: State, part: Part)
    requires InOrder(Issued(e.written) + [e.itemID], e.sequence)
    ensures InOrder(Issued(Announce(e, part).written), Announce(e, part).sequence)
  {
    hide Issued;
    var t := Send(e, ItemAdded(e.responseID, |e.output|, MessageItem(e.itemID, false, [])));
    SendInOrder(e, ItemAdded(e.responseID, |e.output|, MessageItem(e.itemID, false, [])));
    PlainSendInOrder(t, PartAdded(e.responseID, e.itemID, |e.output|, part));
  }

  lemma StartInOrder(e: State, event: Event)
    requires InOrder(Issued(e.written), e.sequence) && Encode(e, event).Some? && NamesNoResponse(event)
    requires event.ResponseStart? || event.ContentStart? || event.ToolCallStart?
    ensures InOrder(Issued(Encode(e, event).value.written), Encode(e, event).value.sequence)
  {
    hide Issued, Decimal.Print, GeneratedID;
    if event.ResponseStart? {
      var t := Reset(e).(started := true);
      var u := t.(responseID := GeneratedID(RESPONSE, t.sequence + 1), sequence := t.sequence + 1);
      SendInOrder(u, ResponseCreated(Snap(u, false)));
    } else {
      var t := Open(e, event.index, L.TextKind);
      match event.block
      case TextBlock(_) => AnnounceInOrder(t.(text := ""), TextPart(""));
      case AudioBlock(_) => AnnounceInOrder(Open(e, event.index, L.AudioKind), AudioPart);
      case ToolCallBlock(id, name, _) =>
        var u := Open(e, event.index, L.ToolKind).(callID := id, name := name, arguments := "");
        SendInOrder(u, ItemAdded(u.responseID, |u.output|, CallItem(u.itemID, false, id, name, "")));
    }
  }

  lemma StopInOrder(e: State, index: int)
    requires InOrder(Issued(e.written), e.sequence) && StopContent(e, index).Some?
    ensures InOrder(Issued(StopContent(e, index).value.written), StopContent(e, index).value.sequence)
  {
    hide Issued;
    var t := e.(contentOpen := false);
    if e.kind == L.ToolKind {
      var arguments := OrEmptyObject(e.arguments);
      var item := CallItem(e.itemID, true, e.callID, e.name, arguments);
      t := t.(output := t.output + [item]);
      PlainSendInOrder(t, ArgumentsDone(e.responseID, e.itemID, |e.output|, e.callID, e.name, arguments));
      t := Send(t, ArgumentsDone(e.responseID, e.itemID, |e.output|, e.callID, e.name, arguments));
      PlainSendInOrder(t, ItemDone(e.responseID, |e.output|, item));
    } else {
      var part := if e.kind == L.TextKind then TextPart(e.text) else AudioPart;
      var item := MessageItem(e.itemID, true, [part]);
      var done := if e.kind == L.TextKind then TextDone(e.responseID, e.itemID, |e.output|, e.text)
                  else AudioDone(e.responseID, e.itemID, |e.output|);
      t := t.(output := t.output + [item]);
      PlainSendInOrder(t, done);
      t := Send(t, done);
      PlainSendInOrder(t, PartDone(e.responseID, e.itemID, |e.output|, part));
      t := Send(t, PartDone(e.responseID, e.itemID, |e.output|, part));
      PlainSendInOrder(t, ItemDone(e.responseID, |e.output|, item));
    }
  }

  lemma StepInOrder(e: State, event: Event)
    requires InOrder(Issued(e.written), e.sequence) && Encode(e, event).Some? && NamesNoResponse(event)
    ensures InOrder(Issued(Encode(e, event).value.written), Encode(e, event).value.sequence)
  {
    hide Issued, StopContent, StartContent, StartResponse, InOrder;
    match event
    case TextDelta(_, delta) =>
      PlainSendInOrder(e.(text := e.text + delta), TextDeltaOut(e.responseID, e.itemID, |e.output|, delta));
    case AudioDelta(_, delta, _) => PlainSendInOrder(e, AudioDeltaOut(e.responseID, e.itemID, |e.output|, delta));
    case ToolCallDelta(_, delta) =>
      var piece := delta.value.arguments;
      PlainSendInOrder(e.(arguments := e.arguments + piece),
                       ArgumentsDelta(e.responseID, e.itemID, |e.output|, e.callID, piece));
    case UsageReport(_) =>
    case ContentStop(index) => StopInOrder(e, index);
    case ResponseStop(_, _) =>
      var t := e.(stopped := true);
      PlainSendInOrder(t, ResponseDone(Snap(t, true)));
    case _ => StartInOrder(e, event);
  }

  lemma NothingIssued()
    ensures InOrder(Issued(INITIAL.written), INITIAL.sequence)
  {
  }

  lemma {:induction false} RunInOrder(events: seq<Event>)
    requires EncodeAll(INITIAL, events).Some? && forall k :: 0 <= k < |events| ==> NamesNoResponse(events[k])
    ensures var e := EncodeAll(INITIAL, events).value; InOrder(Issued(e.written), e.sequence)
  {
    hide Encode, Issued;
    if events == [] {
      NothingIssued();
    } else {
      RunInOrder(events[..|events| - 1]);
      StepInOrder(EncodeAll(INITIAL, events[..|events| - 1]).value, events[|events| - 1]);
    }
  }

  /** Whatever events are written: all generated identifiers, of events, items and responses, across all
      responses of the session, are different. */
  lemma IdentifiersDiffer(events: seq<Event>, j: nat, k: nat)
    requires EncodeAll(INITIAL, events).Some? && forall i :: 0 <= i < |events| ==> NamesNoResponse(events[i])
    requires j < k < |Issued(EncodeAll(INITIAL, events).value.written)|
    ensures var ids := Issued(EncodeAll(INITIAL, events).value.written); ids[j] != ids[k]
  {
    hide EncodeAll, Issued, Generated;
    RunInOrder(events);
    var ids := Issued(EncodeAll(INITIAL, events).value.written);
    if ids[j] == ids[k] {
      GeneratedOnce(ids[j], j + 1, k + 1);
    }
  }

  // ---------------------------------------------------------------- contents

  /** All that was streamed for an item. */
  function DeltasFor(written: seq<Wire>, itemID: string): string {
    if written == [] then ""
    else DeltasFor(written[..|written| - 1], itemID) + DeltaIn(written[|written| - 1].body, itemID)
  }

  function DeltaIn(body: Body, itemID: string): string {
    match body
    case TextDeltaOut(_, id, _, delta) => if id == itemID then delta else ""
    case ArgumentsDelta(_, id, _, _, delta) => if id == itemID then delta else ""
    case _ => ""
  }

  /** The items finished since the current response was created. */
  function DoneItems(written: seq<Wire>): seq<Item> {
    if written == [] then []
    else
      var before := DoneItems(written[..|written| - 1]);
      match written[|written| - 1].body
      case ResponseCreated(_) => []
      case ItemDone(_, _, item) => before + [item]
      case _ => before
  }

  /** What an event says of its item agrees with everything streamed before it. */
  predicate Agrees(before: seq<Wire>, body: Body) {
    match body
    case ItemAdded(_, k, item) => k == |DoneItems(before)| && DeltasFor(before, item.id) == ""
    case TextDeltaOut(_, _, k, _) => k == |DoneItems(before)|
    case AudioDeltaOut(_, _, k, _) => k == |DoneItems(before)|
    case ArgumentsDelta(_, _, k, _, _) => k == |DoneItems(before)|
    case TextDone(_, id, k, text) => k == |DoneItems(before)| && text == DeltasFor(before, id)
    case ArgumentsDone(_, id, k, _, _, arguments) =>
      k == |DoneItems(before)| && arguments == OrEmptyObject(DeltasFor(before, id))
    case ItemDone(_, k, MessageItem(id, completed, content)) =>
      k == |DoneItems(before)| && completed && (content == [TextPart(DeltasFor(before, id))] || content == [AudioPart])
    case ItemDone(_, k, CallItem(id, completed, _, _, arguments)) =>
      k == |DoneItems(before)| && completed && arguments == OrEmptyObject(DeltasFor(before, id))
    case ResponseDone(response) => response.completed && response.output == DoneItems(before)
    case _ => true
  }

  predicate AllAgree(written: seq<Wire>) {
    written == [] ||
    (AllAgree(written[..|written| - 1]) && Agrees(written[..|written| - 1], written[|written| - 1].body))
  }

  /** Items are numbered by a counter that only grows, so a new one has had no deltas. */
  predicate NoDeltasAfter(written: seq<Wire>, n: nat) {
    written == [] ||
    (NoDeltasAfter(written[..|written| - 1], n) &&
     match written[|written| - 1].body
     case TextDeltaOut(_, id, _, _) => Early(id, n)
     case ArgumentsDelta(_, id, _, _, _) => Early(id, n)
     case _ => true)
  }

  predicate Early(id: string, n: nat) {
    exists m: nat :: m <= n && id == GeneratedID(ITEM, m)
  }

  lemma {:induction false} NoDeltasYet(written: seq<Wire>, n: nat)
    requires NoDeltasAfter(written, n)
    ensures DeltasFor(written, GeneratedID(ITEM, n + 1)) == ""
  {
    hide GeneratedID;
    if written != [] {
      NoDeltasYet(written[..|written| - 1], n);
      var body := written[|written| - 1].body;
      if body.TextDeltaOut? || body.ArgumentsDelta? {
        NotEarly(body.itemID, n);
      }
    }
  }

  lemma NotEarly(id: string, n: nat)
    requires Early(id, n)
    ensures id != GeneratedID(ITEM, n + 1)
  {
    var m: nat :| m <= n && id == GeneratedID(ITEM, m);
    if id == GeneratedID(ITEM, n + 1) {
      Decimal.PrefixedInjective(ITEM, m, n + 1);
    }
  }

  lemma {:induction false} NoDeltasLater(written: seq<Wire>, m: nat, n: nat)
    requires NoDeltasAfter(written, m) && m <= n
    ensures NoDeltasAfter(written, n)
  {
    hide GeneratedID;
    if written != [] {
      NoDeltasLater(written[..|written| - 1], m, n);
    }
  }

  /** What the encoder's buffers have to do with what was written. */
  ghost predicate Faithful(e: State) {
    && AllAgree(e.written) && NoDeltasAfter(e.written, e.sequence)
    && (e.started ==> e.output == DoneItems(e.written))
    && (e.contentOpen ==>
          && e.started && Early(e.itemID, e.sequence)
          && (e.kind == L.TextKind ==> DeltasFor(e.written, e.itemID) == e.text)
          && (e.kind == L.ToolKind ==> DeltasFor(e.written, e.itemID) == e.arguments))
  }

  lemma SendAgrees(e: State, body: Body)
    requires AllAgree(e.written) && NoDeltasAfter(e.written, e.sequence) && Agrees(e.written, body)
    requires (body.TextDeltaOut? || body.ArgumentsDelta?) ==> Early(body.itemID, e.sequence)
    ensures var t := Send(e, body);
            && AllAgree(t.written) && NoDeltasAfter(t.written, t.sequence)
            && DoneItems(t.written) == (if body.ResponseCreated? then []
                                        else if body.ItemDone? then DoneItems(e.written) + [body.item]
                                        else DoneItems(e.written))
    ensures forall id :: DeltasFor(Send(e, body).written, id) == DeltasFor(e.written, id) + DeltaIn(body, id)
  {
    var t := Send(e, body);
    assert t.written[..|e.written|] == e.written;
    NoDeltasLater(e.written, e.sequence, t.sequence);
    if body.TextDeltaOut? || body.ArgumentsDelta? {
      EarlyLater(body.itemID, e.sequence, t.sequence);
    }
  }

  lemma EarlyLater(id: string, m: nat, n: nat)
    requires Early(id, m) && m <= n
    ensures Early(id, n)
  {
  }

  /** An event without a delta leaves what was streamed as it is. */
  lemma QuietSend(e: State, body: Body)
    requires AllAgree(e.written) && NoDeltasAfter(e.written, e.sequence) && Agrees(e.written, body)
    requires !body.TextDeltaOut? && !body.ArgumentsDelta?
    ensures var t := Send(e, body);
            && AllAgree(t.written) && NoDeltasAfter(t.written, t.sequence)
            && DoneItems(t.written) == (if body.ResponseCreated? then []
                                        else if body.ItemDone? then DoneItems(e.written) + [body.item]
                                        else DoneItems(e.written))
            && forall id :: DeltasFor(t.written, id) == DeltasFor(e.written, id)
  {
    hide AllAgree, NoDeltasAfter, DoneItems, DeltasFor, Agrees;
    SendAgrees(e, body);
    forall id ensures DeltasFor(Send(e, body).written, id) == DeltasFor(e.written, id) {
      assert DeltasFor(e.written, id) + "" == DeltasFor(e.written, id);
    }
  }

  lemma OpenFresh(e: State, index: int, kind: L.Kind)
    requires Faithful(e) && Active(e)
    ensures var t := Open(e, index, kind);
            && Early(t.itemID, t.sequence) && DeltasFor(t.written, t.itemID) == ""
            && AllAgree(t.written) && NoDeltasAfter(t.written, t.sequence) && t.output == DoneItems(t.written)
  {
    hide AllAgree, NoDeltasAfter, DoneItems, DeltasFor, GeneratedID;
    NoDeltasYet(e.written, e.sequence);
    NoDeltasLater(e.written, e.sequence, e.sequence + 1);
  }

  lemma StartFaithful(e: State, index: int, block: Block)
    requires Faithful(e) && StartContent(e, index, block).Some?
    ensures Faithful(StartContent(e, index, block).value)
  {
    hide AllAgree, NoDeltasAfter, DoneItems, DeltasFor, GeneratedID, Early;
    var kind := if block.TextBlock? then L.TextKind else if block.AudioBlock? then L.AudioKind else L.ToolKind;
    OpenFresh(e, index, kind);
    var t := Open(e, index, kind);
    if kind == L.ToolKind {
      t := t.(callID := block.id, name := block.name, arguments := "");
      QuietSend(t, ItemAdded(t.responseID, |t.output|, CallItem(t.itemID, false, block.id, block.name, "")));
      EarlyLater(t.itemID, t.sequence, t.sequence + 1);
    } else {
      var part := if kind == L.TextKind then TextPart("") else AudioPart;
      t := if kind == L.TextKind then t.(text := "") else t;
      QuietSend(t, ItemAdded(t.responseID, |t.output|, MessageItem(t.itemID, false, [])));
      var u := Send(t, ItemAdded(t.responseID, |t.output|, MessageItem(t.itemID, false, [])));
      QuietSend(u, PartAdded(t.responseID, t.itemID, |t.output|, part));
      EarlyLater(t.itemID, t.sequence, t.sequence + 2);
    }
  }

  lemma StopFaithful(e: State, index: int)
    requires Faithful(e) && StopContent(e, index).Some?
    ensures Faithful(StopContent(e, index).value)
  {
    hide AllAgree, NoDeltasAfter, DoneItems, DeltasFor, GeneratedID, Early;
    var k := |e.output|;
    if e.kind == L.ToolKind {
      var arguments := OrEmptyObject(e.arguments);
      var item := CallItem(e.itemID, true, e.callID, e.name, arguments);
      var t := e.(contentOpen := false, output := e.output + [item]);
      var done := ArgumentsDone(e.responseID, e.itemID, k, e.callID, e.name, arguments);
      QuietSend(t, done);
      QuietSend(Send(t, done), ItemDone(e.responseID, k, item));
    } else {
      var part := if e.kind == L.TextKind then TextPart(e.text) else AudioPart;
      var item := MessageItem(e.itemID, true, [part]);
      var t := e.(contentOpen := false, output := e.output + [item]);
      var done := if e.kind == L.TextKind then TextDone(e.responseID, e.itemID, k, e.text)
                  else AudioDone(e.responseID, e.itemID, k);
      QuietSend(t, done);
      var u := Send(t, done);
      QuietSend(u, PartDone(e.responseID, e.itemID, k, part));
      QuietSend(Send(u, PartDone(e.responseID, e.itemID, k, part)), ItemDone(e.responseID, k, item));
    }
  }

  lemma DeltaFaithful(e: State, event: Event)
    requires Faithful(e) && Encode(e, event).Some?
    requires event.TextDelta? || event.AudioDelta? || event.ToolCallDelta?
    ensures Faithful(Encode(e, event).value)
  {
    hide AllAgree, NoDeltasAfter, DoneItems, DeltasFor, GeneratedID, Early;
    var t := Encode(e, event).value;
    EarlyLater(e.itemID, e.sequence, e.sequence + 1);
    match event
    case TextDelta(_, delta) =>
      SendAgrees(e.(text := e.text + delta), TextDeltaOut(e.responseID, e.itemID, |e.output|, delta));
    case AudioDelta(_, delta, _) => QuietSend(e, AudioDeltaOut(e.responseID, e.itemID, |e.output|, delta));
    case ToolCallDelta(_, delta) =>
      var piece := delta.value.arguments;
      SendAgrees(e.(arguments := e.arguments + piece), ArgumentsDelta(e.responseID, e.itemID, |e.output|, e.callID, piece));
  }

  lemma StepFaithful(e: State, event: Event)
    requires Faithful(e) && Encode(e, event).Some?
    ensures Faithful(Encode(e, event).value)
  {
    hide AllAgree, NoDeltasAfter, DoneItems, DeltasFor, GeneratedID, StartContent, StopContent, Early;
    match event
    case ResponseStart(id, _) =>
      var t := Reset(e).(started := true);
      var u := if id != "" then t.(responseID := id)
               else t.(responseID := GeneratedID(RESPONSE, t.sequence + 1), sequence := t.sequence + 1);
      NoDeltasLater(e.written, e.sequence, u.sequence);
      QuietSend(u, ResponseCreated(Snap(u, false)));
    case ContentStart(index, block) => StartFaithful(e, index, block);
    case ToolCallStart(index, block) => StartFaithful(e, index, block);
    case ContentStop(index) => StopFaithful(e, index);
    case ResponseStop(_, _) =>
      var t := e.(stopped := true);
      QuietSend(t, ResponseDone(Snap(t, true)));
    case UsageReport(_) =>
    case _ => DeltaFaithful(e, event);
  }

  /** Whatever events are written, in every prefix: each done text or arguments is the concatenation of
      its item's deltas, an item is numbered by the items done before it, and a finished response shows
      exactly those. */
  lemma {:induction false} EverythingAgrees(events: seq<Event>)
    requires EncodeAll(INITIAL, events).Some?
    ensures Faithful(EncodeAll(INITIAL, events).value)
  {
    hide Encode;
    if events != [] {
      hide Faithful;
      EverythingAgrees(events[..|events| - 1]);
      StepFaithful(EncodeAll(INITIAL, events[..|events| - 1]).value, events[|events| - 1]);
    }
  }

  // ---------------------------------------------------------------- what a finished response shows

  /** The usage reported last since the response began. */
  function UsageSince(events: seq<Event>): Usage {
    if events == [] then NO_USAGE
    else
      match events[|events| - 1]
      case ResponseStart(_, _) => NO_USAGE
      case UsageReport(Some(usage)) => usage
      case _ => UsageSince(events[..|events| - 1])
  }

  /** Whether the content begun last since then is audio. */
  predicate AudioSince(events: seq<Event>) {
    events != [] &&
    match events[|events| - 1]
    case ResponseStart(_, _) => false
    case ContentStart(_, block) => block.AudioBlock?
    case ToolCallStart(_, block) => block.AudioBlock?
    case _ => AudioSince(events[..|events| - 1])
  }

  lemma {:induction false} SinceStart(events: seq<Event>)
    requires EncodeAll(INITIAL, events).Some?
    ensures var e := EncodeAll(INITIAL, events).value;
            e.usage == UsageSince(events) && (e.kind == L.AudioKind <==> AudioSince(events))
  {
    hide EncodeAll, GeneratedID;
    if events == [] {
      NothingEncoded();
    } else {
      var init, last := events[..|events| - 1], events[|events| - 1];
      assert events == init + [last];
      EncodeSnoc(INITIAL, init, last);
      SinceStart(init);
    }
  }

  lemma NothingEncoded()
    ensures EncodeAll(INITIAL, []) == Some(INITIAL)
  {
  }

  predicate Counted(u: Usage) {
    u.input != 0 || u.output != 0 || u.reasoning != 0 || u.cacheRead != 0
  }

  /** A response that is stopped is reported done, with the usage reported since it began, if that counts
      anything, and as audio exactly if audio was its last content. A response that begins shows none of that. */
  lemma DoneShows(events: seq<Event>, reason: StopReason, sequence: string)
    requires EncodeAll(INITIAL, events + [ResponseStop(reason, sequence)]).Some?
    ensures reason == EndTurn || reason == StopSequence || reason == ToolUse
    ensures var written := EncodeAll(INITIAL, events + [ResponseStop(reason, sequence)]).value.written;
            && written != [] && written[|written| - 1].body.ResponseDone?
            && var r := written[|written| - 1].body.response;
               && r.completed && (r.audio <==> AudioSince(events))
               && r.usage == if Counted(UsageSince(events)) then Some(UsageSince(events)) else None
  {
    hide EncodeAll, GeneratedID, UsageSince, AudioSince;
    EncodeSnoc(INITIAL, events, ResponseStop(reason, sequence));
    SinceStart(events);
  }

  lemma CreatedShows(events: seq<Event>, id: string, model: string)
    requires EncodeAll(INITIAL, events + [ResponseStart(id, model)]).Some?
    ensures var written := EncodeAll(INITIAL, events + [ResponseStart(id, model)]).value.written;
            && written != [] && written[|written| - 1].body.ResponseCreated?
            && var r := written[|written| - 1].body.response;
               !r.completed && !r.audio && r.usage.None? && r.output == [] && (id != "" ==> r.id == id)
  {
    hide EncodeAll, GeneratedID;
    EncodeSnoc(INITIAL, events, ResponseStart(id, model));
  }
}
