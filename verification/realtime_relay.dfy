/** A Gemini Live session relayed to an OpenAI Realtime client, message by message. */
module RealtimeRelay {
  import opened Llm
  import L = LiveDecoder
  import E = RealtimeEncoder
  import K = RealtimeClient

  datatype Pair = Pair(decoder: L.Draft, encoder: E.State)

  const FRESH := Pair(L.INITIAL, E.INITIAL)

  /** One server message: all its events are decoded, then encoded in order. */
  function Relay(f: L.Formats, model: string, p: Pair, m: L.Message): Option<Pair> {
    match L.Convert(f, model, p.decoder.(events := []), m)
    case None => None
    case Some(d) =>
      match E.EncodeAll(p.encoder, d.events)
      case None => None
      case Some(e) => Some(Pair(d, e))
  }

  function RelayAll(f: L.Formats, model: string, messages: seq<L.Message>): Option<Pair> {
    if messages == [] then Some(FRESH)
    else
      match RelayAll(f, model, messages[..|messages| - 1])
      case None => None
      case Some(p) => Relay(f, model, p, messages[|messages| - 1])
  }

  /** The decoder on its own. */
  function ConvertAll(f: L.Formats, model: string, messages: seq<L.Message>): Option<L.Draft> {
    if messages == [] then Some(L.INITIAL)
    else
      match ConvertAll(f, model, messages[..|messages| - 1])
      case None => None
      case Some(d) => L.Convert(f, model, d.(events := []), messages[|messages| - 1])
  }

  // ---------------------------------------------------------------- what is said and what is heard

  datatype Utterance = Said(text: string) | Played(audio: string) | Called(id: string, name: string, arguments: string)

  function Texts(texts: seq<string>): seq<Utterance> {
    if texts == [] then [] else Texts(texts[..|texts| - 1]) + [Said(texts[|texts| - 1])]
  }

  function Sounds(audio: seq<L.Chunk>): seq<Utterance> {
    if audio == [] then [] else Sounds(audio[..|audio| - 1]) + [Played(audio[|audio| - 1].data)]
  }

  function Calls(calls: seq<L.LiveCall>): seq<Utterance> {
    if calls == [] then []
    else
      var last := calls[|calls| - 1];
      Calls(calls[..|calls| - 1]) + [Called(last.id, last.name, OrEmptyObject(last.args))]
  }

  /** What a server message says. */
  function Speech(m: L.Message): seq<Utterance> {
    match m.body
    case ServerContent(c) => Texts(c.text) + Sounds(c.audio)
    case ToolCall(Some(calls)) => Calls(calls)
    case _ => []
  }

  function AllSpeech(messages: seq<L.Message>): seq<Utterance> {
    if messages == [] then [] else AllSpeech(messages[..|messages| - 1]) + Speech(messages[|messages| - 1])
  }

  /** What a client hears in the events it is sent. */
  function Heard(written: seq<E.Wire>): seq<Utterance> {
    if written == [] then []
    else Heard(written[..|written| - 1]) + HeardIn(written[|written| - 1].body)
  }

  function HeardIn(body: E.Body): seq<Utterance> {
    match body
    case TextDeltaOut(_, _, _, delta) => [Said(delta)]
    case AudioDeltaOut(_, _, _, delta) => [Played(delta)]
    case ArgumentsDone(_, _, _, callID, name, arguments) => [Called(callID, name, arguments)]
    case _ => []
  }

  lemma SendHeard(e: E.State, body: E.Body)
    ensures Heard(E.Send(e, body).written) == Heard(e.written) + HeardIn(body)
  {}

  lemma QuietHeard(e: E.State, body: E.Body)
    requires HeardIn(body) == []
    ensures Heard(E.Send(e, body).written) == Heard(e.written)
  {}

  // ---------------------------------------------------------------- the simulation

  /** The two machines agree on what is open. */
  predicate Matches(d: L.Draft, e: E.State) {
    && (e.started && !e.stopped <==> d.responseOpen)
    && (e.contentOpen <==> d.contentOpen)
    && (d.contentOpen ==>
          d.responseOpen && e.index == 0 && e.kind == d.kind && (d.kind == L.TextKind || d.kind == L.AudioKind))
  }

  /** The events decoded so far were accepted one and all and left the encoder in `e`. */
  predicate Follows(start: E.State, d: L.Draft, e: E.State) {
    E.EncodeAll(start, d.events) == Some(e) && Matches(d, e)
  }

  lemma ResponseFollows(start: E.State, model: string, d: L.Draft, e: E.State) returns (t: E.State)
    requires Follows(start, d, e)
    ensures Follows(start, L.OpenResponse(model, d), t) && Heard(t.written) == Heard(e.written)
  {
    hide E.EncodeAll, Heard, E.GeneratedID, E.Snap;
    t := e;
    if !d.responseOpen {
      E.EncodeSnoc(start, d.events, ResponseStart("", model));
      t := E.StartResponse(e, "").value;
      var r := E.Reset(e).(started := true);
      var u := r.(responseID := E.GeneratedID(E.RESPONSE, r.sequence + 1), sequence := r.sequence + 1);
      QuietHeard(u, E.ResponseCreated(E.Snap(u, false)));
    }
  }

  lemma AnnounceHeard(e: E.State, part: E.Part)
    ensures Heard(E.Announce(e, part).written) == Heard(e.written)
  {}

  lemma ContentFollows(start: E.State, d: L.Draft, e: E.State, kind: L.Kind) returns (t: E.State)
    requires Follows(start, d, e) && d.responseOpen && (kind == L.TextKind || kind == L.AudioKind) && !L.Mixes(d, kind)
    ensures Follows(start, L.OpenContent(d, kind), t) && Heard(t.written) == Heard(e.written)
    ensures L.OpenContent(d, kind).contentOpen && L.OpenContent(d, kind).kind == kind
  {
    hide E.EncodeAll, Heard, E.GeneratedID;
    t := e;
    if !d.contentOpen {
      var block := if kind == L.TextKind then TextBlock("") else AudioBlock(L.PCM_24K);
      E.EncodeSnoc(start, d.events, ContentStart(0, block));
      t := E.StartContent(e, 0, block).value;
      if kind == L.TextKind {
        AnnounceHeard(E.Open(e, 0, kind).(text := ""), E.TextPart(""));
      } else {
        AnnounceHeard(E.Open(e, 0, kind), E.AudioPart);
      }
    }
  }

  lemma {:induction false} TextsFollow(start: E.State, d: L.Draft, e: E.State, texts: seq<string>) returns (t: E.State)
    requires Follows(start, d, e) && d.contentOpen && d.kind == L.TextKind
    ensures Follows(start, L.PushTexts(d, texts), t) && Heard(t.written) == Heard(e.written) + Texts(texts)
    ensures L.PushTexts(d, texts) == d.(events := L.PushTexts(d, texts).events)
  {
    hide E.EncodeAll, Heard, E.GeneratedID;
    if texts == [] {
      t := e;
      assert Heard(e.written) + [] == Heard(e.written);
    } else {
      var last := texts[|texts| - 1];
      var u := TextsFollow(start, d, e, texts[..|texts| - 1]);
      E.EncodeSnoc(start, L.PushTexts(d, texts[..|texts| - 1]).events, TextDelta(0, last));
      t := E.Encode(u, TextDelta(0, last)).value;
      SendHeard(u.(text := u.text + last), E.TextDeltaOut(u.responseID, u.itemID, |u.output|, last));
    }
  }

  lemma {:induction false} SoundsFollow(f: L.Formats, start: E.State, d: L.Draft, e: E.State, audio: seq<L.Chunk>)
    returns (t: E.State)
    requires Follows(start, d, e) && d.contentOpen && d.kind == L.AudioKind && L.PushAudio(f, d, audio).Some?
    ensures Follows(start, L.PushAudio(f, d, audio).value, t) && Heard(t.written) == Heard(e.written) + Sounds(audio)
    ensures L.PushAudio(f, d, audio).value == d.(events := L.PushAudio(f, d, audio).value.events)
  {
    hide E.EncodeAll, Heard, E.GeneratedID;
    if audio == [] {
      t := e;
      assert Heard(e.written) + [] == Heard(e.written);
    } else {
      var last := audio[|audio| - 1];
      var u := SoundsFollow(f, start, d, e, audio[..|audio| - 1]);
      var event := AudioDelta(0, last.data, last.mediaType);
      E.EncodeSnoc(start, L.PushAudio(f, d, audio[..|audio| - 1]).value.events, event);
      t := E.Encode(u, event).value;
      SendHeard(u, E.AudioDeltaOut(u.responseID, u.itemID, |u.output|, last.data));
    }
  }

  lemma SpeakFollows(f: L.Formats, model: string, start: E.State, d: L.Draft, e: E.State, c: L.Content) returns (t: E.State)
    requires Follows(start, d, e) && L.Speak(f, model, d, c).Some?
    ensures Follows(start, L.Speak(f, model, d, c).value, t)
    ensures Heard(t.written) == Heard(e.written) + (Texts(c.text) + Sounds(c.audio))
    ensures L.Speaks(c) ==> L.Speak(f, model, d, c).value.responseOpen
  {
    hide E.EncodeAll, Heard, L.OpenContent, L.PushTexts, L.PushAudio;
    t := e;
    assert Heard(e.written) + ([] + []) == Heard(e.written);
    assert Texts(c.text) + [] == Texts(c.text) && [] + Sounds(c.audio) == Sounds(c.audio);
    if L.Speaks(c) {
      t := ResponseFollows(start, model, d, e);
      var open := L.OpenResponse(model, d);
      if c.text != [] {
        t := ContentFollows(start, open, t, L.TextKind);
        t := TextsFollow(start, L.OpenContent(open, L.TextKind), t, c.text);
      } else if c.audio != [] {
        t := ContentFollows(start, open, t, L.AudioKind);
        t := SoundsFollow(f, start, L.OpenContent(open, L.AudioKind), t, c.audio);
      }
    }
  }

  /** One call: its start, its arguments and its end. */
  lemma CallFollows(start: E.State, d: L.Draft, e: E.State, index: int, call: L.LiveCall) returns (t: E.State)
    requires Follows(start, d, e) && d.responseOpen && !d.contentOpen && call.id != "" && call.name != ""
    ensures var args := OrEmptyObject(call.args);
            var begun := L.Push(d, ToolCallStart(index, ToolCallBlock(call.id, call.name, "{}")));
            var told := L.Push(begun, ToolCallDelta(index, Some(ToolDelta(call.id, call.name, args))));
            Follows(start, L.Push(told, ContentStop(index)), t)
    ensures Heard(t.written) == Heard(e.written) + [Called(call.id, call.name, OrEmptyObject(call.args))]
  {
    hide E.EncodeAll, Heard, E.GeneratedID;
    var args := OrEmptyObject(call.args);
    var block := ToolCallBlock(call.id, call.name, "{}");
    var begun := L.Push(d, ToolCallStart(index, block));
    E.EncodeSnoc(start, d.events, ToolCallStart(index, block));
    var a := BeginHeard(e, index, call);
    var delta := ToolCallDelta(index, Some(ToolDelta(call.id, call.name, args)));
    E.EncodeSnoc(start, begun.events, delta);
    var b := E.Encode(a, delta).value;
    assert "" + args == args;
    QuietHeard(a.(arguments := a.arguments + args), E.ArgumentsDelta(a.responseID, a.itemID, |a.output|, a.callID, args));
    E.EncodeSnoc(start, L.Push(begun, delta).events, ContentStop(index));
    t := FinishHeard(b, index);
  }

  lemma BeginHeard(e: E.State, index: int, call: L.LiveCall) returns (a: E.State)
    requires E.Active(e) && call.id != "" && call.name != ""
    ensures E.Encode(e, ToolCallStart(index, ToolCallBlock(call.id, call.name, "{}"))) == Some(a)
    ensures a.started && !a.stopped && a.contentOpen && a.kind == L.ToolKind && a.index == index
    ensures a.callID == call.id && a.name == call.name && a.arguments == "" && Heard(a.written) == Heard(e.written)
  {
    hide Heard, E.GeneratedID;
    a := E.OpenCall(e, index, call.id, call.name);
    var t := E.Open(e, index, L.ToolKind).(callID := call.id, name := call.name, arguments := "");
    QuietHeard(t, E.ItemAdded(t.responseID, |t.output|, E.CallItem(t.itemID, false, call.id, call.name, "")));
  }

  lemma FinishHeard(b: E.State, index: int) returns (t: E.State)
    requires b.started && !b.stopped && b.contentOpen && b.kind == L.ToolKind && b.index == index
    ensures E.StopContent(b, index) == Some(t) && t.started && !t.stopped && !t.contentOpen
    ensures Heard(t.written) == Heard(b.written) + [Called(b.callID, b.name, OrEmptyObject(b.arguments))]
  {
    hide Heard, E.GeneratedID;
    var arguments := OrEmptyObject(b.arguments);
    var item := E.CallItem(b.itemID, true, b.callID, b.name, arguments);
    var u := b.(contentOpen := false, output := b.output + [item]);
    var done := E.ArgumentsDone(b.responseID, b.itemID, |b.output|, b.callID, b.name, arguments);
    SendHeard(u, done);
    QuietHeard(E.Send(u, done), E.ItemDone(b.responseID, |b.output|, item));
    t := E.Send(E.Send(u, done), E.ItemDone(b.responseID, |b.output|, item));
  }

  lemma {:induction false} CallsFollow(f: L.Formats, start: E.State, d: L.Draft, e: E.State, calls: seq<L.LiveCall>)
    returns (t: E.State)
    requires Follows(start, d, e) && d.responseOpen && !d.contentOpen && L.PushCalls(f, d, calls).Some?
    ensures Follows(start, L.PushCalls(f, d, calls).value, t) && Heard(t.written) == Heard(e.written) + Calls(calls)
    ensures L.PushCalls(f, d, calls).value == d.(events := L.PushCalls(f, d, calls).value.events)
  {
    hide E.EncodeAll, Heard, Matches;
    if calls == [] {
      t := e;
      assert Heard(e.written) + [] == Heard(e.written);
    } else {
      var index := |calls| - 1;
      var u := CallsFollow(f, start, d, e, calls[..index]);
      t := CallFollows(start, L.PushCalls(f, d, calls[..index]).value, u, index, calls[index]);
    }
  }

  lemma StopFollows(start: E.State, d: L.Draft, e: E.State, reason: StopReason) returns (t: E.State)
    requires Follows(start, d, e) && d.responseOpen && !d.contentOpen
    ensures E.EncodeAll(start, L.Push(d, ResponseStop(reason, "")).events).Some? <==>
            reason in {EndTurn, StopSequence, ToolUse}
    ensures reason in {EndTurn, StopSequence, ToolUse} ==>
              && Follows(start, L.Push(d, ResponseStop(reason, "")).(responseOpen := false), t)
              && Heard(t.written) == Heard(e.written)
  {
    hide E.EncodeAll, Heard, E.GeneratedID, E.Snap;
    t := e;
    E.EncodeSnoc(start, d.events, ResponseStop(reason, ""));
    if reason in {EndTurn, StopSequence, ToolUse} {
      t := E.StopResponse(e, reason).value;
      var u := e.(stopped := true);
      QuietHeard(u, E.ResponseDone(E.Snap(u, true)));
    }
  }

  lemma ToolsFollow(f: L.Formats, model: string, start: E.State, d: L.Draft, e: E.State, calls: seq<L.LiveCall>)
    returns (t: E.State)
    requires Follows(start, d, e) && L.CallTools(f, model, d, Some(calls)).Some?
    ensures Follows(start, L.CallTools(f, model, d, Some(calls)).value, t)
    ensures Heard(t.written) == Heard(e.written) + Calls(calls)
  {
    hide E.EncodeAll, Heard, L.PushCalls, Matches;
    MatchesOpen(d, e);
    t := ResponseFollows(start, model, d, e);
    var open := L.OpenResponse(model, d);
    t := CallsFollow(f, start, open, t, calls);
    t := StopFollows(start, L.PushCalls(f, open, calls).value, t, ToolUse);
  }

  lemma MatchesOpen(d: L.Draft, e: E.State)
    requires Matches(d, e)
    ensures e.contentOpen == d.contentOpen
  {
  }

  lemma CountFollows(start: E.State, model: string, d: L.Draft, e: E.State, usage: Option<Usage>) returns (t: E.State)
    requires Follows(start, d, e)
    ensures Follows(start, L.Count(model, d, usage), t) && Heard(t.written) == Heard(e.written)
  {
    hide E.EncodeAll, Heard;
    t := e;
    if usage.Some? {
      t := ResponseFollows(start, model, d, e);
      E.EncodeSnoc(start, L.OpenResponse(model, d).events, UsageReport(usage));
      t := t.(usage := usage.value);
    }
  }

  lemma CloseFollows(start: E.State, d: L.Draft, e: E.State) returns (t: E.State)
    requires Follows(start, d, e) && d.contentOpen
    ensures Follows(start, L.Push(d, ContentStop(0)).(contentOpen := false, kind := L.NoKind), t)
    ensures Heard(t.written) == Heard(e.written)
  {
    hide E.EncodeAll, Heard, E.GeneratedID;
    E.EncodeSnoc(start, d.events, ContentStop(0));
    t := E.StopContent(e, 0).value;
    var part := if e.kind == L.TextKind then E.TextPart(e.text) else E.AudioPart;
    var item := E.MessageItem(e.itemID, true, [part]);
    var u := e.(contentOpen := false, output := e.output + [item]);
    var done := if e.kind == L.TextKind then E.TextDone(e.responseID, e.itemID, |e.output|, e.text)
                else E.AudioDone(e.responseID, e.itemID, |e.output|);
    QuietHeard(u, done);
    var v := E.Send(u, done);
    QuietHeard(v, E.PartDone(e.responseID, e.itemID, |e.output|, part));
    QuietHeard(E.Send(v, E.PartDone(e.responseID, e.itemID, |e.output|, part)), E.ItemDone(e.responseID, |e.output|, item));
  }

  lemma EndFollows(start: E.State, d: L.Draft, e: E.State, interrupted: bool) returns (t: E.State)
    requires Follows(start, d, e) && d.responseOpen
    ensures E.EncodeAll(start, L.EndTurn(d, interrupted).events).Some? <==> !interrupted
    ensures !interrupted ==> Follows(start, L.EndTurn(d, interrupted), t) && Heard(t.written) == Heard(e.written)
  {
    hide E.EncodeAll, Heard, Matches;
    t := e;
    var closed := d;
    if d.contentOpen {
      t := CloseFollows(start, d, e);
      closed := L.Push(d, ContentStop(0)).(contentOpen := false, kind := L.NoKind);
    }
    t := StopFollows(start, closed, t, if interrupted then Unknown else StopReason.EndTurn);
  }

  /** A message the decoder accepts is relayed exactly when it does not interrupt, and the client then
      hears what it says. */
  lemma MessageRelayed(f: L.Formats, model: string, p: Pair, m: L.Message)
    requires Matches(p.decoder, p.encoder) && L.Convert(f, model, p.decoder.(events := []), m).Some?
    ensures Relay(f, model, p, m).Some? <==> !L.Interrupts(m)
    ensures Relay(f, model, p, m).Some? ==>
              var q := Relay(f, model, p, m).value;
              && Matches(q.decoder, q.encoder)
              && Heard(q.encoder.written) == Heard(p.encoder.written) + Speech(m)
  {
    hide Heard, L.Speak, L.CallTools, L.EndTurn, Matches, E.Encode;
    var d, start := p.decoder.(events := []), p.encoder;
    DraftMatches(p.decoder, start);
    var t := start;
    assert Heard(t.written) + [] == Heard(t.written);
    var said := d;
    if !((m.body.GoAway? || m.body.Resumption? || m.body.SetupComplete?) && m.usage.None?) {
      if m.body.ServerContent? {
        t := SpeakFollows(f, model, start, d, start, m.body.content);
        said := L.Speak(f, model, d, m.body.content).value;
      } else if m.body.ToolCall? {
        CallsThere(f, model, d, m.body.calls);
        t := ToolsFollow(f, model, start, d, start, m.body.calls.value);
        said := L.CallTools(f, model, d, m.body.calls).value;
      }
      t := CountFollows(start, model, said, t, m.usage);
      if L.Ends(m) {
        t := EndFollows(start, L.Count(model, said, m.usage), t, m.body.content.interrupted);
      }
    }
  }

  lemma DraftMatches(d: L.Draft, e: E.State)
    requires Matches(d, e)
    ensures Follows(e, d.(events := []), e)
  {
  }

  lemma CallsThere(f: L.Formats, model: string, d: L.Draft, calls: Option<seq<L.LiveCall>>)
    requires L.CallTools(f, model, d, calls).Some?
    ensures calls.Some?
  {
  }

  /** For every run of messages the decoder accepts: the encoder never fails but at an interruption, the
      machines stay in step, and the client hears all that was said, in order. */
  lemma {:induction false} SessionRelayed(f: L.Formats, model: string, messages: seq<L.Message>)
    requires ConvertAll(f, model, messages).Some?
    ensures RelayAll(f, model, messages).Some? <==> forall k :: 0 <= k < |messages| ==> !L.Interrupts(messages[k])
    ensures RelayAll(f, model, messages).Some? ==>
              var p := RelayAll(f, model, messages).value;
              && Matches(p.decoder, p.encoder) && p.decoder == ConvertAll(f, model, messages).value
              && Heard(p.encoder.written) == AllSpeech(messages)
  {
    hide Heard, Matches, L.Convert, E.EncodeAll, Speech;
    if messages == [] {
      NothingHeard();
    } else {
      var before, last := messages[..|messages| - 1], messages[|messages| - 1];
      SessionRelayed(f, model, before);
      if RelayAll(f, model, before).Some? {
        MessageRelayed(f, model, RelayAll(f, model, before).value, last);
      }
    }
  }

  lemma NothingHeard()
    ensures Matches(FRESH.decoder, FRESH.encoder) && Heard(FRESH.encoder.written) == []
  {
  }

  /** All events of a session as one list, so that what holds of every event list holds of it. */
  lemma {:induction false} SessionEvents(f: L.Formats, model: string, messages: seq<L.Message>) returns (events: seq<Event>)
    requires RelayAll(f, model, messages).Some?
    ensures E.EncodeAll(E.INITIAL, events) == Some(RelayAll(f, model, messages).value.encoder)
    ensures forall k :: 0 <= k < |events| ==> K.NamesNoResponse(events[k])
  {
    hide L.Convert, E.Encode, K.NamesNoResponse;
    if messages == [] {
      events := [];
    } else {
      var before, last := messages[..|messages| - 1], messages[|messages| - 1];
      events := SessionEvents(f, model, before);
      var p := RelayAll(f, model, before).value;
      var d := L.Convert(f, model, p.decoder.(events := []), last).value;
      EncodeConcat(E.INITIAL, events, d.events);
      NamesNone(f, model, p.decoder.(events := []), last);
      events := events + d.events;
    }
  }

  lemma {:induction false} EncodeConcat(start: E.State, first: seq<Event>, second: seq<Event>)
    requires E.EncodeAll(start, first).Some?
    ensures E.EncodeAll(start, first + second) == E.EncodeAll(E.EncodeAll(start, first).value, second)
  {
    hide E.Encode;
    if second == [] {
      assert first + second == first;
    } else {
      var init := second[..|second| - 1];
      assert first + second == (first + init) + [second[|second| - 1]];
      EncodeConcat(start, first, init);
      E.EncodeSnoc(start, first + init, second[|second| - 1]);
    }
  }

  ghost predicate NoneNamed(events: seq<Event>) {
    forall k :: 0 <= k < |events| ==> K.NamesNoResponse(events[k])
  }

  lemma {:induction false} TextsName(d: L.Draft, texts: seq<string>)
    requires NoneNamed(d.events)
    ensures NoneNamed(L.PushTexts(d, texts).events)
  {
    if texts != [] {
      TextsName(d, texts[..|texts| - 1]);
    }
  }

  lemma {:induction false} SoundsName(f: L.Formats, d: L.Draft, audio: seq<L.Chunk>)
    requires NoneNamed(d.events) && L.PushAudio(f, d, audio).Some?
    ensures NoneNamed(L.PushAudio(f, d, audio).value.events)
  {
    if audio != [] {
      SoundsName(f, d, audio[..|audio| - 1]);
    }
  }

  lemma {:induction false} CallsName(f: L.Formats, d: L.Draft, calls: seq<L.LiveCall>)
    requires NoneNamed(d.events) && L.PushCalls(f, d, calls).Some?
    ensures NoneNamed(L.PushCalls(f, d, calls).value.events)
  {
    if calls != [] {
      CallsName(f, d, calls[..|calls| - 1]);
    }
  }

  lemma SpeechNames(f: L.Formats, model: string, d: L.Draft, c: L.Content)
    requires NoneNamed(d.events) && L.Speak(f, model, d, c).Some?
    ensures NoneNamed(L.Speak(f, model, d, c).value.events)
  {
    hide L.PushTexts, L.PushAudio;
    var open := L.OpenResponse(model, d);
    assert NoneNamed(open.events);
    if L.Speaks(c) && c.text != [] {
      TextsName(L.OpenContent(open, L.TextKind), c.text);
    } else if L.Speaks(c) && c.audio != [] {
      SoundsName(f, L.OpenContent(open, L.AudioKind), c.audio);
    }
  }

  lemma ToolsName(f: L.Formats, model: string, d: L.Draft, calls: Option<seq<L.LiveCall>>)
    requires NoneNamed(d.events) && L.CallTools(f, model, d, calls).Some?
    ensures NoneNamed(L.CallTools(f, model, d, calls).value.events)
  {
    hide L.PushCalls;
    CallsName(f, L.OpenResponse(model, d), calls.value);
  }

  lemma NamesNone(f: L.Formats, model: string, d: L.Draft, m: L.Message)
    requires d.events == [] && L.Convert(f, model, d, m).Some?
    ensures NoneNamed(L.Convert(f, model, d, m).value.events)
  {
    hide L.Speak, L.CallTools;
    match m.body
    case ServerContent(c) =>
      if L.Speak(f, model, d, c).Some? {
        SpeechNames(f, model, d, c);
      }
    case ToolCall(calls) =>
      if L.CallTools(f, model, d, calls).Some? {
        ToolsName(f, model, d, calls);
      }
    case _ =>
  }

  /** Over a whole session: identifiers never repeat, and what is reported done was streamed. */
  lemma SessionSound(f: L.Formats, model: string, messages: seq<L.Message>)
    requires RelayAll(f, model, messages).Some?
    ensures var written := RelayAll(f, model, messages).value.encoder.written;
            && K.AllAgree(written)
            && forall j, k :: 0 <= j < k < |K.Issued(written)| ==> K.Issued(written)[j] != K.Issued(written)[k]
  {
    hide E.EncodeAll, K.Issued, K.AllAgree, L.Convert;
    var events := SessionEvents(f, model, messages);
    K.EverythingAgrees(events);
    var ids := K.Issued(RelayAll(f, model, messages).value.encoder.written);
    forall j, k | 0 <= j < k < |ids| ensures ids[j] != ids[k] {
      K.IdentifiersDiffer(events, j, k);
    }
  }

  /** A tool-call message that also reports usage opens a further response, which holds only the usage. */
  lemma ToolUsageOpensResponse(f: L.Formats, model: string, call: L.LiveCall, usage: Usage)
    requires call.id != "" && call.name != "" && f.isJson(OrEmptyObject(call.args))
    ensures var m := L.Message(L.ToolCall(Some([call])), Some(usage), false, false);
            var d := L.Convert(f, model, L.INITIAL, m);
            && d.Some? && d.value.responseOpen && |d.value.events| == 7
            && d.value.events[4] == ResponseStop(ToolUse, "") && d.value.events[5] == ResponseStart("", model)
  {
    assert [call][..0] == [];
    var open := L.OpenResponse(model, L.INITIAL);
    assert L.PushCalls(f, open, []) == Some(open);
  }

  /** So does a message that only reports usage, or sets the session up and reports some, between two turns. */
  lemma UsageOpensResponse(f: L.Formats, model: string, setup: bool, usage: Usage)
    ensures var m := L.Message(if setup then L.SetupComplete else L.NoBody, Some(usage), false, false);
            L.Convert(f, model, L.INITIAL, m)
            == Some(L.Draft(true, false, L.NoKind, [ResponseStart("", model), UsageReport(Some(usage))]))
  {
    var m := L.Message(if setup then L.SetupComplete else L.NoBody, Some(usage), false, false);
    assert L.Convert(f, model, L.INITIAL, m) == Some(L.Count(model, L.INITIAL, Some(usage)));
    assert L.Count(model, L.INITIAL, Some(usage)).events == [ResponseStart("", model), UsageReport(Some(usage))];
  }

  /** What a message leaves behind is an open response that it gave nothing but usage. */
  predicate LeavesEmptyResponse(d: L.Draft, model: string) {
    && d.responseOpen && |d.events| >= 2
    && d.events[|d.events| - 2] == ResponseStart("", model) && d.events[|d.events| - 1].UsageReport?
  }

  lemma TextsEnd(d: L.Draft, texts: seq<string>)
    requires texts != []
    ensures var t := L.PushTexts(d, texts); |t.events| > |d.events| && t.events[|t.events| - 1].TextDelta?
    ensures L.PushTexts(d, texts).responseOpen == d.responseOpen
  {
    if |texts| > 1 {
      TextsEnd(d, texts[..|texts| - 1]);
    }
  }

  lemma SoundsEnd(f: L.Formats, d: L.Draft, audio: seq<L.Chunk>)
    requires audio != [] && L.PushAudio(f, d, audio).Some?
    ensures var t := L.PushAudio(f, d, audio).value; |t.events| > |d.events| && t.events[|t.events| - 1].AudioDelta?
    ensures L.PushAudio(f, d, audio).value.responseOpen == d.responseOpen
  {
    if |audio| > 1 {
      SoundsEnd(f, d, audio[..|audio| - 1]);
    }
  }

  lemma SpeechEnds(f: L.Formats, model: string, d: L.Draft, c: L.Content)
    requires d.events == [] && L.Speak(f, model, d, c).Some?
    ensures var t := L.Speak(f, model, d, c).value;
            && (t.responseOpen <==> d.responseOpen || L.Speaks(c))
            && (c.text == [] && c.audio == [] ==> t.events == if d.responseOpen || !L.Speaks(c) then [] else [ResponseStart("", model)])
            && (c.text != [] || c.audio != [] ==>
                  t.events != [] && var last := t.events[|t.events| - 1]; last.TextDelta? || last.AudioDelta?)
  {
    var open := L.OpenResponse(model, d);
    if c.text != [] {
      TextsEnd(L.OpenContent(open, L.TextKind), c.text);
    } else if c.audio != [] {
      SoundsEnd(f, L.OpenContent(open, L.AudioKind), c.audio);
    }
  }

  lemma NothingSaid(m: L.Message)
    requires m.body.ServerContent?
    ensures Speech(m) == [] <==> m.body.content.text == [] && m.body.content.audio == []
  {
  }

  /** A message leaves such a response exactly when it reports usage, does not end the turn, and is a tool
      call or comes between two responses and says nothing. After a tool call a response is open exactly
      when the message reported usage. */
  lemma LeavesEmptyResponseExactly(f: L.Formats, model: string, d: L.Draft, m: L.Message)
    requires d.events == [] && L.Convert(f, model, d, m).Some?
    ensures var t := L.Convert(f, model, d, m).value;
            && (LeavesEmptyResponse(t, model) <==>
                  m.usage.Some? && !L.Ends(m) && (m.body.ToolCall? || (!d.responseOpen && Speech(m) == [])))
            && (m.body.ToolCall? ==> (t.responseOpen <==> m.usage.Some?))
  {
    hide L.Speak, L.PushCalls;
    match m.body
    case ServerContent(c) =>
      hide Speech;
      NothingSaid(m);
      if L.Speak(f, model, d, c).Some? {
        SpeechEnds(f, model, d, c);
      }
    case _ =>
  }
}
