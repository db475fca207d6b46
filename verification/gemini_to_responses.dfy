/**
 The Responses transform over a Gemini stream: every event is gated, observed, persisted when it
 is the stop, and only then encoded. The buffered variant encodes after the whole stream is in.
 */
module GeminiToResponses {
  import opened Llm
  import C = Canonical
  import G = GeminiDecoder
  import P = GeminiDecoderProof
  import E = ResponsesEncoder
  import K = ResponsesClient
  import A = StreamAccumulator
  import S = ResponseStore
  import M = ResponsesMeaning
  import SM = StoredMeaning
  import U = ShownUsage
  import T = Continuation
  import Gates

  /** What a transform leaves behind: the encoder, the accumulator and the store. */
  datatype Pipe = Pipe(encoder: E.State, held: A.State, store: S.Store)

  datatype Result = Result(ok: bool, pipe: Pipe)

  /** What surrounds a transform: the JSON library, what the request resolved to, and store faults. */
  datatype Setting = Setting(json: Json, plan: S.Plan, faults: S.Faults)

  function Cfg(plan: S.Plan, refusal: bool): E.Config {
    if plan.active then E.Config(refusal, plan.previousID, plan.conversationID, plan.store)
    else E.Config(refusal, "", "", false)
  }

  ghost function Relay(x: Setting, p: Pipe, e: Event): Result {
    var o := A.Observe(p.held, e);
    if !Gates.GeminiToResponses(e, false) then Result(false, p)
    else if !o.ok then Result(false, p.(held := o.state))
    else
      var saved := if e.ResponseStop? then A.PersistStream(x.json, o.state, p.store, x.plan, x.faults) else (true, p.store);
      if !saved.0 then Result(false, p.(held := o.state, store := saved.1))
      else
        var r := E.Encode(Cfg(x.plan, false), p.encoder, e);
        Result(r.ok, Pipe(r.state, o.state, saved.1))
  }

  ghost function RelayAll(x: Setting, store: S.Store, events: seq<Event>): Result {
    if events == [] then Result(true, Pipe(E.INITIAL, A.INITIAL, store))
    else
      var r := RelayAll(x, store, events[..|events| - 1]);
      if r.ok then Relay(x, r.pipe, events[|events| - 1]) else r
  }

  /** The unbuffered transform of a whole stream. */
  ghost function Transform(x: Setting, store: S.Store, frames: seq<G.Frame>): Result {
    var r := RelayAll(x, store, G.DecodeFrames(x.json, frames).state.emitted);
    r.(ok := r.ok && G.Accepts(x.json, frames))
  }

  lemma {:induction false} FirstRelayFailureStands(x: Setting, store: S.Store, events: seq<Event>, k: nat)
    requires k <= |events| && !RelayAll(x, store, events[..k]).ok
    ensures RelayAll(x, store, events) == RelayAll(x, store, events[..k])
  {
    hide Relay;
    if k < |events| {
      assert events[..|events| - 1][..k] == events[..k];
      FirstRelayFailureStands(x, store, events[..|events| - 1], k);
    } else {
      assert events[..k] == events;
    }
  }

  lemma {:induction false} EmittedGrows(json: Json, frames: seq<G.Frame>, k: nat)
    requires k <= |frames|
    ensures G.DecodeFrames(json, frames[..k]).state.emitted <= G.DecodeFrames(json, frames).state.emitted
  {
    hide G.DecodeFrame;
    if k < |frames| {
      var last := |frames| - 1;
      assert frames[..last][..k] == frames[..k];
      EmittedGrows(json, frames[..last], k);
      P.FrameGrew(json, G.DecodeFrames(json, frames[..last]).state, frames[last]);
    } else {
      assert frames[..k] == frames;
    }
  }

  /** The transform object: the closure over the encoder, the accumulator and the store. */
  class Transformer {
    const x: Setting
    const encoder: E.StreamEncoder
    const accumulator: A.Accumulator
    var store: S.Store

    constructor (x: Setting, store: S.Store)
      ensures this.x == x && Abs() == Pipe(E.INITIAL, A.INITIAL, store) && encoder.Cfg() == Cfg(x.plan, false)
      ensures fresh(encoder) && fresh(accumulator)
    {
      this.x := x;
      this.store := store;
      var e := new E.StreamEncoder();
      if x.plan.active {
        e.SetState(x.plan.previousID, x.plan.conversationID, x.plan.store);
      }
      encoder := e;
      accumulator := new A.Accumulator();
    }

    function Abs(): Pipe
      reads this, encoder, accumulator
    {
      Pipe(encoder.Abs(), accumulator.Abs(), store)
    }

    /** One event: gate, observe, persist before a stop goes out, encode. */
    method Handle(e: Event) returns (ok: bool)
      requires encoder.Cfg() == Cfg(x.plan, false)
      modifies this, encoder, accumulator
      ensures Result(ok, Abs()) == Relay(x, old(Abs()), e) && encoder.Cfg() == Cfg(x.plan, false)
    {
      if !Gates.GeminiToResponses(e, false) { return false; }
      var observed := accumulator.Watch(e);
      if !observed { return false; }
      if e.ResponseStop? {
        var saved, after := accumulator.Save(x.json, store, x.plan, x.faults);
        store := after;
        if !saved { return false; }
      }
      ok := encoder.EncodeEvent(e);
    }

    /** The events emitted since the last call, in order, until one is refused. */
    method HandleAll(initial: S.Store, events: seq<Event>, done: nat) returns (ok: bool)
      requires encoder.Cfg() == Cfg(x.plan, false) && done <= |events|
      requires Result(true, Abs()) == RelayAll(x, initial, events[..done])
      modifies this, encoder, accumulator
      ensures Result(ok, Abs()) == RelayAll(x, initial, events) && encoder.Cfg() == Cfg(x.plan, false)
    {
      hide Relay;
      for k := done to |events|
        invariant encoder.Cfg() == Cfg(x.plan, false)
        invariant Result(true, Abs()) == RelayAll(x, initial, events[..k])
      {
        assert events[..k + 1][..k] == events[..k];
        var handled := Handle(events[k]);
        if !handled {
          FirstRelayFailureStands(x, initial, events, k + 1);
          return false;
        }
      }
      assert events[..|events|] == events;
      return true;
    }
  }

  /** The unbuffered transform as it runs: decode a frame, pass on what it emitted, go on. */
  method Run(x: Setting, store: S.Store, frames: seq<G.Frame>)
    returns (ok: bool, written: seq<E.Wire>, after: S.Store)
    ensures var t := Transform(x, store, frames);
            ok == t.ok && written == t.pipe.encoder.written && after == t.pipe.store
  {
    var decoder := new G.StreamDecoder(x.json);
    var sink := new Transformer(x, store);
    ghost var all := G.DecodeFrames(x.json, frames).state.emitted;
    for k := 0 to |frames|
      invariant fresh(sink) && fresh(sink.encoder) && fresh(sink.accumulator)
      invariant decoder.json == x.json && sink.x == x && sink.encoder.Cfg() == Cfg(x.plan, false)
      invariant G.Outcome(true, decoder.Abs()) == G.DecodeFrames(x.json, frames[..k])
      invariant Result(true, sink.Abs()) == RelayAll(x, store, decoder.emitted)
    {
      assert frames[..k + 1][..k] == frames[..k];
      var before := decoder.emitted;
      P.FrameGrew(x.json, decoder.Abs(), frames[k]);
      var decoded := decoder.DecodeEvent(frames[k]);
      assert G.Outcome(decoded, decoder.Abs()) == G.DecodeFrames(x.json, frames[..k + 1]);
      assert decoder.emitted[..|before|] == before;
      var handled := sink.HandleAll(store, decoder.emitted, |before|);
      EmittedGrows(x.json, frames, k + 1);
      if !handled {
        assert all[..|decoder.emitted|] == decoder.emitted;
        FirstRelayFailureStands(x, store, all, |decoder.emitted|);
        return false, sink.encoder.written, sink.store;
      }
      if !decoded {
        G.FirstFailureStands(x.json, frames, k + 1);
        return false, sink.encoder.written, sink.store;
      }
    }
    assert frames[..|frames|] == frames;
    return !(decoder.started && !decoder.stopped), sink.encoder.written, sink.store;
  }

  /** Whether the last stop of a buffered stream is a refusal. */
  function LastStopRefuses(events: seq<Event>): bool {
    if events == [] then false
    else
      var last := events[|events| - 1];
      if last.ResponseStop? then last.reason == ContentFilter else LastStopRefuses(events[..|events| - 1])
  }

  /** The buffered transform; the size limits of the event buffer are not part of the model. */
  ghost function TransformBuffered(x: Setting, store: S.Store, frames: seq<G.Frame>): Result {
    var events := G.DecodeFrames(x.json, frames).state.emitted;
    var o := A.ObserveAll(events);
    var idle := Pipe(E.INITIAL, o.state, store);
    if !(G.Accepts(x.json, frames) && o.ok && forall k :: 0 <= k < |events| ==> Gates.GeminiToResponses(events[k], true))
    then Result(false, idle)
    else
      var saved := A.PersistStream(x.json, o.state, store, x.plan, x.faults);
      if !saved.0 then Result(false, idle.(store := saved.1))
      else
        var c := Cfg(x.plan, LastStopRefuses(events));
        Result(E.AcceptsAll(c, events), Pipe(E.EncodeAll(c, events), o.state, saved.1))
  }

  // ---------------------------------------------------------------- what is delivered and what is stored

  /** The record serves the same response as the terminal snapshot. Only the `store` flag differs:
      the stored object is built without it. */
  predicate StoredAgrees(r: E.Snapshot, stored: S.Record) {
    && stored.payload.id == r.id && stored.payload.model == r.model
    && stored.payload.previousID == r.previousID && stored.payload.conversationID == r.conversationID
    && stored.status == r.status && stored.payload.status == r.status
    && stored.payload.outputText == r.outputText
    && S.CallsOf(stored.payload.output) == S.CallsOf(r.output)
    && S.PartsOf(stored.payload.output) == S.PartsOf(r.output)
    && r.store && !stored.payload.store
  }

  function TerminalBody(stop: StopReason, r: E.Snapshot): E.Body {
    if stop == MaxTokens then E.ResponseIncomplete(r) else E.ResponseCompleted(r)
  }

  /** The last thing written is the terminal event, and it shows the whole message. */
  ghost predicate Shows(c: E.Config, m: C.Message, written: seq<E.Wire>, r: E.Snapshot)
    requires C.WellFormed(m)
  {
    && m.stop.Some? && |written| > 0
    && written[|written| - 1].body == TerminalBody(m.stop.value, r)
    && r.id == E.NormalizeID(m.id) && r.model == m.model
    && r.output == M.Output(c, m)
    && r.outputText == (if c.refusal then "" else C.TextOf(m.items))
    && r.status == (if m.stop.value == MaxTokens then E.Incomplete else E.Completed)
    && r.previousID == c.previousID && r.conversationID == c.conversationID && r.store == c.store
  }

  /** The record kept under the id the terminal snapshot carries agrees with it, and holds the usage that
      was reported by the time it was saved. */
  predicate Kept(plan: S.Plan, store: S.Store, r: E.Snapshot, reported: Usage) {
    plan.active && plan.store ==>
      && r.id in store.responses && StoredAgrees(r, store.responses[r.id])
      && store.responses[r.id].payload.usage == reported
  }

  ghost predicate Delivered(plan: S.Plan, refusal: bool, reported: Usage, m: C.Message, p: Pipe, r: E.Snapshot)
    requires C.WellFormed(m)
  {
    && Shows(Cfg(plan, refusal), m, p.encoder.written, r) && Kept(plan, p.store, r, reported)
    && r.previousID == (if plan.active then plan.previousID else "")
    && r.conversationID == (if plan.active then plan.conversationID else "")
    && r.store == (plan.active && plan.store)
  }

  /** The turn a message leaves behind for later requests: its texts and calls. */
  function TurnOf(m: C.Message): seq<ChatMessage>
    requires C.WellFormed(m)
  {
    var said := SM.Portables(m, |m.items|);
    if said == [] then [] else [ChatMessage(Assistant, said)]
  }

  /** The conversation and the record that the request asked for now hold the request's history and the
      message, which can be continued unless there was reasoning in it; nothing else in the store changed. */
  ghost predicate Remembers(plan: S.Plan, before: S.Store, after: S.Store, m: C.Message)
    requires C.WellFormed(m)
  {
    var history, id := plan.history + TurnOf(m), E.NormalizeID(m.id);
    && after.conversations ==
       (if plan.active && plan.conversation.Some? then
          before.conversations[plan.conversation.value.id :=
            S.Conversation(plan.conversation.value.id, history, !SM.HasReasoning(m))]
        else before.conversations)
    && (!(plan.active && plan.store) ==> after.responses == before.responses)
    && (plan.active && plan.store ==>
          && id in after.responses && after.responses == before.responses[id := after.responses[id]]
          && after.responses[id].messages == history
          && (after.responses[id].continuable <==> !SM.HasReasoning(m)))
  }

  /** What the Gemini decoder guarantees of its messages. */
  ghost predicate Sound(m: C.Message) {
    SM.Positional(m) && m.text == C.TextOf(m.items)
  }

  lemma TracksSound(s: G.State, m: C.Message)
    requires P.Tracks(s, m) && C.WellFormed(m)
    ensures Sound(m)
  {
    forall i ensures i in m.blocks <==> 0 <= i < |m.items| {
      P.IdentityAt(s.nextBlock, i);
    }
    forall i | i in m.blocks ensures m.blocks[i] == i {
      P.IdentityAt(s.nextBlock, i);
    }
  }

  /** The snapshot the encoder would now send. */
  function Final(c: E.Config, s: E.State, stop: StopReason): E.Snapshot {
    E.Snap(c, s, if stop == MaxTokens then E.Incomplete else E.Completed)
  }

  lemma SnapshotRenders(c: E.Config, s: E.State, m: C.Message, stop: StopReason)
    requires M.Mirrors(c, s, m) && m.Live() && m.open == {} && Sound(m)
    ensures var r := Final(c, s, stop);
            && r.id == E.NormalizeID(m.id) && r.model == m.model && r.output == M.Output(c, m)
            && r.outputText == (if c.refusal then "" else C.TextOf(m.items))
  {
    M.FinishedOutput(c, s, m);
  }

  /** What persisting a stopped stream puts into the store, compared with the rendering. */
  lemma StoredRendering(c: E.Config, m: C.Message, content: seq<Block>)
    requires C.WellFormed(m)
    requires content == SM.Portables(m, |m.items|) + (if SM.HasReasoning(m) then [ReasoningBlock("", "", "")] else [])
    requires S.EncodeBlocks(c.refusal, content).Some?
    ensures var e := S.Flush(S.EncodeBlocks(c.refusal, content).value);
            && S.CallsOf(e.items) == S.CallsOf(M.Output(c, m))
            && S.PartsOf(e.items) == S.PartsOf(M.Output(c, m))
            && e.text == if c.refusal then "" else C.TextOf(m.items)
  {
    hide S.CallsOf, S.PartsOf, S.ContentCalls, S.ContentParts, S.ContentText, C.TextOf, SM.Portables, S.EncodeBlocks;
    var portable := SM.Portables(m, |m.items|);
    S.EncodingSays(c.refusal, content);
    S.FlushSays(S.EncodeBlocks(c.refusal, content).value);
    SM.MarkerSaysNothing(c.refusal, portable);
    assert portable + [] == portable;
    SM.RenderingsAgree(c, m, |m.items|);
    assert M.Output(c, m)[..|m.items|] == M.Output(c, m);
    assert m.items[..|m.items|] == m.items;
  }

  /** A successful save of a stopped stream agrees with the snapshot that follows it. */
  lemma SaveAgrees(x: Setting, store: S.Store, refusal: bool, a: A.State, m: C.Message, written: seq<E.Wire>, r: E.Snapshot)
    requires SM.Holds(a, m) && Sound(m) && m.stop.Some? && x.plan.active && x.plan.store
    requires A.PersistStream(x.json, a, store, x.plan, x.faults).0
    requires refusal == (m.stop.value == ContentFilter)
    requires Shows(Cfg(x.plan, refusal), m, written, r)
    ensures var after := A.PersistStream(x.json, a, store, x.plan, x.faults).1;
            && r.id in after.responses && StoredAgrees(r, after.responses[r.id])
            && after.responses[r.id].payload.usage == a.usage
  {
    hide SM.Holds, Sound, M.Output, S.CallsOf, S.PartsOf, S.Reply, S.AllPortable, C.TextOf, SM.Portables, A.Content;
    var content := A.Content(a);
    HeldHead(a, m);
    assert SM.Positional(m) && content ==
           SM.Portables(m, |m.items|) + (if SM.HasReasoning(m) then [ReasoningBlock("", "", "")] else []) by {
      ContentOf(a, m);
    }
    NormalizeTwice(m.id);
    StoredRendering(Cfg(x.plan, refusal), m, content);
  }

  lemma {:induction false} PortablesArePortable(m: C.Message, n: nat)
    requires C.WellFormed(m) && n <= |m.items|
    ensures S.AllPortable(SM.Portables(m, n)) && S.PortableBlocks(SM.Portables(m, n)) == SM.Portables(m, n)
  {
    if n > 0 {
      PortablesArePortable(m, n - 1);
      var before, said := SM.Portables(m, n - 1), SM.Portables(m, n);
      if said != before {
        assert said[..|said| - 1] == before;
      }
    }
  }

  /** Of what is held, the texts and calls are kept for later requests. */
  lemma HeldReply(a: A.State, m: C.Message)
    requires SM.Holds(a, m) && Sound(m)
    ensures C.WellFormed(m) && S.Reply(A.Content(a)) == TurnOf(m)
    ensures S.AllPortable(A.Content(a)) <==> !SM.HasReasoning(m)
  {
    hide SM.Holds, SM.Portables, A.Content, C.TextOf, SM.HasReasoning;
    ContentOf(a, m);
    PortablesArePortable(m, |m.items|);
    var said := SM.Portables(m, |m.items|);
    assert (said + [ReasoningBlock("", "", "")])[..|said|] == said;
    SM.MarkerSaysNothing(false, said);
    assert said + [] == said;
  }

  lemma StreamRemembered(x: Setting, store: S.Store, a: A.State, m: C.Message)
    requires SM.Holds(a, m) && Sound(m) && m.stop.Some? && C.WellFormed(m)
    requires A.PersistStream(x.json, a, store, x.plan, x.faults).0
    ensures Remembers(x.plan, store, A.PersistStream(x.json, a, store, x.plan, x.faults).1, m)
  {
    hide SM.Holds, Sound, A.Content, A.ToolsValid, S.Persist, S.Reply, S.AllPortable, TurnOf, SM.HasReasoning, C.WellFormed,
         E.NormalizeID;
    HeldHead(a, m);
    HeldReply(a, m);
    if x.plan.active {
      T.PersistWrites(store, x.plan, A.Closed(a, x.plan, A.Content(a)), x.faults);
    }
  }

  lemma RemembersIgnoresUsage(plan: S.Plan, before: S.Store, after: S.Store, m: C.Message, n: C.Message)
    requires C.WellFormed(m) && n == m.(usage := n.usage) && Remembers(plan, before, after, m)
    ensures C.WellFormed(n) && Remembers(plan, before, after, n)
  {
    SamePortables(m, n, |m.items|);
    assert SM.HasReasoning(m) <==> SM.HasReasoning(n);
  }

  lemma {:induction false} SamePortables(m: C.Message, n: C.Message, k: nat)
    requires C.WellFormed(m) && C.WellFormed(n) && n == m.(usage := n.usage) && k <= |m.items|
    ensures SM.Portables(m, k) == SM.Portables(n, k)
  {
    if k > 0 {
      SamePortables(m, n, k - 1);
    }
  }

  lemma HeldHead(a: A.State, m: C.Message)
    requires SM.Holds(a, m)
    ensures a.responseID == m.id && a.model == m.model && a.usage == m.usage && a.stop == m.stop && C.WellFormed(m)
  {
  }

  lemma ContentOf(a: A.State, m: C.Message)
    requires SM.Holds(a, m) && Sound(m)
    ensures SM.Positional(m)
    ensures A.Content(a) ==
            SM.Portables(m, |m.items|) + (if SM.HasReasoning(m) then [ReasoningBlock("", "", "")] else [])
  {
    SM.ContentIsPortables(a, m);
  }

  /** An id is normalized once however often it passes through; all but the empty one, which has a name of its
      own, are what follows the prefix. */
  lemma NormalizeTwice(id: string)
    ensures E.NormalizeID(E.NormalizeID(id)) == E.NormalizeID(id)
    ensures |E.NormalizeID(id)| >= 5 && E.NormalizeID(id)[..5] == "resp_"
    ensures if id == "" then E.NormalizeID(id)[5..] == "gateway" else E.NormalizeID(id) == id || E.NormalizeID(id)[5..] == id
  {
    assert "resp_gateway"[..5] == "resp_";
    assert ("resp_" + id)[..5] == "resp_";
  }

  // ---------------------------------------------------------------- runs of the unbuffered transform

  /** While it succeeds, the transform is the encoder and the accumulator side by side. */
  lemma {:induction false} RelaySplits(x: Setting, store: S.Store, events: seq<Event>)
    requires RelayAll(x, store, events).ok
    ensures E.AcceptsAll(Cfg(x.plan, false), events) && A.ObserveAll(events).ok
    ensures RelayAll(x, store, events).pipe.encoder == E.EncodeAll(Cfg(x.plan, false), events)
    ensures RelayAll(x, store, events).pipe.held == A.ObserveAll(events).state
    ensures forall k :: 0 <= k < |events| ==> Gates.GeminiToResponses(events[k], false)
  {
    hide A.Observe, E.Encode, A.PersistStream;
    if events != [] {
      RelaySplits(x, store, events[..|events| - 1]);
    }
  }

  /** What is known of a running transform and of the message it has relayed so far. */
  ghost predicate Relayed(x: Setting, store: S.Store, m: C.Message, p: Pipe) {
    && C.WellFormed(m)
    && M.Mirrors(Cfg(x.plan, false), p.encoder, m) && SM.Holds(p.held, m)
    && (m.stop.None? ==> p.store == store)
    && (m.stop.Some? ==>
          Remembers(x.plan, store, p.store, m) && exists r: E.Snapshot :: Delivered(x.plan, false, r.usage, m, p, r))
  }

  lemma StopKeeps(c: E.Config, m: C.Message, e: Event)
    requires e.ResponseStop? && C.Apply(m, e).Some? && C.WellFormed(m)
    ensures m.Live() && m.open == {} && C.Apply(m, e) == Some(m.(stop := Some(e.reason)))
    ensures C.WellFormed(C.Apply(m, e).value) && Sound(C.Apply(m, e).value) == Sound(m)
    ensures M.Output(c, m) == M.Output(c, C.Apply(m, e).value)
  {
  }

  lemma ShowStop(c: E.Config, s: E.State, m: C.Message, e: Event) returns (r: E.Snapshot)
    requires M.Mirrors(c, s, m) && C.WellFormed(m) && C.Apply(m, e).Some? && e.ResponseStop?
    requires E.Encode(c, s, e).ok && Sound(C.Apply(m, e).value) && C.WellFormed(C.Apply(m, e).value)
    ensures Shows(c, C.Apply(m, e).value, E.Encode(c, s, e).state.written, r)
    ensures r.usage == s.usage
  {
    hide M.Mirrors, Sound, C.Apply, C.TextOf, E.StopResponse, E.NormalizeID;
    StopKeeps(c, m, e);
    r := Final(c, s, e.reason);
    SnapshotRenders(c, s, m, e.reason);
    StopWrites(c, s, e.reason);
  }

  lemma RelayStop(x: Setting, store: S.Store, m: C.Message, p: Pipe, e: Event)
    requires Relayed(x, store, m, p) && e.ResponseStop? && Relay(x, p, e).ok && C.Apply(m, e).Some?
    requires Sound(C.Apply(m, e).value)
    ensures Relayed(x, store, C.Apply(m, e).value, Relay(x, p, e).pipe)
  {
    hide M.Mirrors, SM.Holds, A.PersistStream, Sound, C.Apply, Shows, StoredAgrees, E.Encode, A.Observe;
    var c := Cfg(x.plan, false);
    var n, q := C.Apply(m, e).value, Relay(x, p, e).pipe;
    StopKeeps(c, m, e);
    M.StepMirrors(c, p.encoder, m, e);
    SM.StepHolds(p.held, m, e);
    HeldHead(q.held, n);
    MirroredUsage(c, p.encoder, m);
    var r := ShowStop(c, p.encoder, m, e);
    if x.plan.active && x.plan.store {
      NotRefused(c, p.encoder, e);
      SaveAgrees(x, p.store, false, q.held, n, q.encoder.written, r);
    }
    StreamRemembered(x, p.store, q.held, n);
    ShowsPlan(x.plan, false, n, q.encoder.written, r);
    assert Delivered(x.plan, false, r.usage, n, q, r);
  }

  lemma ShowsPlan(plan: S.Plan, refusal: bool, m: C.Message, written: seq<E.Wire>, r: E.Snapshot)
    requires C.WellFormed(m) && Shows(Cfg(plan, refusal), m, written, r)
    ensures r.previousID == (if plan.active then plan.previousID else "")
    ensures r.conversationID == (if plan.active then plan.conversationID else "")
    ensures r.store == (plan.active && plan.store)
  {
  }

  lemma MirroredUsage(c: E.Config, s: E.State, m: C.Message)
    requires M.Mirrors(c, s, m)
    ensures s.usage == m.usage
  {
  }

  lemma NotRefused(c: E.Config, s: E.State, e: Event)
    requires e.ResponseStop? && E.Encode(c, s, e).ok && !c.refusal
    ensures e.reason != ContentFilter
  {
  }

  /** An accepted stop writes the terminal event with the snapshot of that moment. */
  lemma StopWrites(c: E.Config, s: E.State, reason: StopReason)
    requires E.StopResponse(c, s, reason).ok
    ensures var w := E.StopResponse(c, s, reason).state.written;
            |w| > 0 && w[|w| - 1].body == TerminalBody(reason, Final(c, s, reason))
  {
  }

  lemma RelayOther(x: Setting, store: S.Store, m: C.Message, p: Pipe, e: Event)
    requires Relayed(x, store, m, p) && !e.ResponseStop? && Relay(x, p, e).ok && C.Apply(m, e).Some?
    requires SM.PlainStart(e)
    ensures Relayed(x, store, C.Apply(m, e).value, Relay(x, p, e).pipe)
  {
    hide M.Mirrors, SM.Holds, A.PersistStream, C.Apply, Shows, StoredAgrees, E.Encode, A.Observe;
    var n, q := C.Apply(m, e).value, Relay(x, p, e).pipe;
    M.StepMirrors(Cfg(x.plan, false), p.encoder, m, e);
    SM.StepHolds(p.held, m, e);
    HeldHead(q.held, n);
    if m.stop.Some? {
      var r: E.Snapshot :| Delivered(x.plan, false, r.usage, m, p, r);
      AfterStop(m, e);
      UsageWritesNothing(Cfg(x.plan, false), p.encoder, e);
      ShowsIgnoresUsage(Cfg(x.plan, false), m, n, p.encoder.written, r);
      RemembersIgnoresUsage(x.plan, store, p.store, m, n);
      assert Delivered(x.plan, false, r.usage, n, q, r);
    } else {
      KeepsRunning(m, e);
    }
  }

  lemma AfterStop(m: C.Message, e: Event)
    requires C.WellFormed(m) && m.stop.Some? && C.Apply(m, e).Some?
    ensures e.UsageReport?
    ensures C.Apply(m, e).value == m.(usage := C.Apply(m, e).value.usage)
  {
  }

  lemma KeepsRunning(m: C.Message, e: Event)
    requires m.stop.None? && !e.ResponseStop? && C.Apply(m, e).Some?
    ensures C.Apply(m, e).value.stop.None?
  {
  }

  lemma {:induction false} RelayDelivers(x: Setting, store: S.Store, events: seq<Event>)
    requires RelayAll(x, store, events).ok && C.Run(events).Some?
    requires C.Run(events).value.stop.Some? ==> Sound(C.Run(events).value)
    requires forall k :: 0 <= k < |events| ==> SM.PlainStart(events[k])
    ensures Relayed(x, store, C.Run(events).value, RelayAll(x, store, events).pipe)
  {
    hide C.Apply, Relay, Relayed, Sound;
    if events == [] {
      EmptyRelayed(x, store);
    } else {
      var before, e := events[..|events| - 1], events[|events| - 1];
      var m := C.Run(before).value;
      C.RunWellFormed(before);
      if m.stop.Some? {
        AfterStop(m, e);
        SoundIgnoresUsage(m, C.Run(events).value);
      }
      RelayDelivers(x, store, before);
      if e.ResponseStop? {
        StopIsNew(m, e);
        RelayStop(x, store, m, RelayAll(x, store, before).pipe, e);
      } else {
        RelayOther(x, store, m, RelayAll(x, store, before).pipe, e);
      }
    }
  }

  lemma EmptyRelayed(x: Setting, store: S.Store)
    ensures Relayed(x, store, C.EMPTY, Pipe(E.INITIAL, A.INITIAL, store))
  {
    assert !SM.HasReasoning(C.EMPTY);
  }

  lemma SoundIgnoresUsage(m: C.Message, n: C.Message)
    requires n == m.(usage := n.usage) && C.WellFormed(m)
    ensures Sound(m) <==> Sound(n)
  {
  }

  // ---------------------------------------------------------------- when it succeeds

  /** Whether the record of a message can be saved. */
  ghost predicate Saves(x: Setting, store: S.Store, events: seq<Event>) {
    A.PersistStream(x.json, A.ObserveAll(events).state, store, x.plan, x.faults).0
  }

  lemma SavingIgnoresUsage(x: Setting, store: S.Store, a: A.State, usage: Usage)
    ensures A.PersistStream(x.json, a, store, x.plan, x.faults).0 ==
            A.PersistStream(x.json, a.(usage := usage), store, x.plan, x.faults).0
  {
    var b := a.(usage := usage);
    assert A.Indexes(a) == A.Indexes(b);
    SameCollect(a, b, A.Indexes(a));
    assert A.ToolsValid(x.json, a) == A.ToolsValid(x.json, b);
  }

  lemma {:induction false} SameCollect(a: A.State, b: A.State, indexes: seq<int>)
    requires b == a.(usage := b.usage)
    requires forall k :: 0 <= k < |indexes| ==> indexes[k] in a.text || indexes[k] in a.tools
    ensures A.Collect(a, indexes) == A.Collect(b, indexes)
  {
    if indexes != [] {
      SameCollect(a, b, indexes[..|indexes| - 1]);
    }
  }

  lemma {:induction false} RelaySucceeds(x: Setting, store: S.Store, events: seq<Event>)
    requires C.Run(events).Some?
    requires C.Run(events).value.stop.Some? ==> Sound(C.Run(events).value) && Saves(x, store, events)
    requires forall k :: 0 <= k < |events| ==> SM.PlainStart(events[k]) && Gates.GeminiToResponses(events[k], false)
    ensures RelayAll(x, store, events).ok
  {
    hide C.Apply, Sound, E.Encode, A.Observe, A.PersistStream, M.Mirrors, SM.Holds, Gates.GeminiToResponses,
         Gates.IntoResponses;
    if events != [] {
      var before, e := events[..|events| - 1], events[|events| - 1];
      var m := C.Run(before).value;
      C.RunWellFormed(before);
      SM.AccumulatorHolds(before);
      var a := A.ObserveAll(before).state;
      SM.StepHolds(a, m, e);
      if m.stop.Some? {
        AfterStop(m, e);
        SoundIgnoresUsage(m, C.Run(events).value);
        UsageOnly(a, e);
        SavingIgnoresUsage(x, store, a, A.ObserveAll(events).state.usage);
      }
      RelaySucceeds(x, store, before);
      RelaySplits(x, store, before);
      RelayDelivers(x, store, before);
      Gates.GeminiIsCarried(events, false);
      M.EncoderMirrors(Cfg(x.plan, false), before);
      M.StepMirrors(Cfg(x.plan, false), E.EncodeAll(Cfg(x.plan, false), before), m, e);
      if e.ResponseStop? {
        StopIsNew(m, e);
      }
    }
  }

  lemma StopIsNew(m: C.Message, e: Event)
    requires e.ResponseStop? && C.Apply(m, e).Some?
    ensures m.stop.None? && C.Apply(m, e).value.stop.Some?
  {
  }

  lemma UsageOnly(a: A.State, e: Event)
    requires e.UsageReport?
    ensures A.Observe(a, e) == A.Outcome(true, a.(usage := A.Observe(a, e).state.usage))
  {
  }

  // ---------------------------------------------------------------- when the record is saved

  /** What the request and the environment must allow for a response to be persisted under an id. */
  predicate Permits(x: Setting, id: string) {
    && id != ""
    && (x.plan.conversation.Some? ==> !x.faults.conversation && x.plan.conversation.value.id != "")
    && (x.plan.store ==> !x.faults.response)
  }

  predicate ArgumentsValid(json: Json, calls: seq<C.Call>) {
    forall k :: 0 <= k < |calls| ==> json.isValid(OrEmptyObject(calls[k].arguments))
  }

  /** The tool held for an item's index is the item's call. */
  lemma HeldCall(a: A.State, m: C.Message, i: int)
    requires SM.Holds(a, m) && SM.Positional(m)
    ensures i in a.tools <==> 0 <= i < |m.items| && m.items[i].CallItem?
    ensures i in a.tools ==>
              && i !in a.text && m.items[i].call < |m.calls|
              && A.Arguments(a.tools[i]) == OrEmptyObject(m.calls[m.items[i].call].arguments)
  {
    assert SM.IsCall(m, i) <==> 0 <= i < |m.items| && m.items[i].CallItem?;
    assert SM.IsText(m, i) ==> m.items[i].TextItem?;
  }

  lemma ToolsValidExactly(json: Json, a: A.State, m: C.Message)
    requires SM.Holds(a, m) && Sound(m) && C.Numbered(m.items, |m.calls|)
    ensures A.ToolsValid(json, a) <==> ArgumentsValid(json, m.calls)
  {
    hide C.Numbered, C.TextOf, SM.Holds, A.Indexes, A.Arguments;
    var indexes := A.Indexes(a);
    assert SM.Positional(m);
    if A.ToolsValid(json, a) {
      forall c | 0 <= c < |m.calls| ensures json.isValid(OrEmptyObject(m.calls[c].arguments)) {
        var i := C.CallHasItem(m.items, |m.calls|, c);
        HeldCall(a, m, i);
        HeldIndex(a, i);
        var k :| 0 <= k < |indexes| && indexes[k] == i;
        assert A.BlockValid(json, a, indexes[k]);
      }
    }
    if ArgumentsValid(json, m.calls) {
      forall k | 0 <= k < |indexes| ensures A.BlockValid(json, a, indexes[k]) {
        HeldCall(a, m, indexes[k]);
      }
    }
  }

  lemma HeldIndex(a: A.State, i: int)
    requires i in a.tools
    ensures exists k :: 0 <= k < |A.Indexes(a)| && A.Indexes(a)[k] == i
  {
    assert i in a.text.Keys + a.tools.Keys;
    assert i in A.Indexes(a);
  }

  lemma {:induction false} PortablesEncodable(m: C.Message, n: nat)
    requires C.WellFormed(m) && n <= |m.items|
    ensures forall k :: 0 <= k < |SM.Portables(m, n)| ==> S.Encodable(SM.Portables(m, n)[k])
  {
    if n > 0 {
      PortablesEncodable(m, n - 1);
    }
  }

  lemma HeldEncodable(a: A.State, m: C.Message)
    requires SM.Holds(a, m) && Sound(m)
    ensures forall k :: 0 <= k < |A.Content(a)| ==> S.Encodable(A.Content(a)[k])
  {
    hide SM.Holds, A.Content, SM.Portables, C.TextOf, SM.HasReasoning;
    ContentOf(a, m);
    PortablesEncodable(m, |m.items|);
  }

  /** Persisting what was collected of a stream succeeds exactly when all is permitted, the stream has
      stopped, and the arguments of its calls are valid. */
  lemma PersistsExactly(x: Setting, store: S.Store, a: A.State, m: C.Message)
    requires SM.Holds(a, m) && Sound(m) && C.Numbered(m.items, |m.calls|) && m.stop != Some(Unknown)
    ensures A.PersistStream(x.json, a, store, x.plan, x.faults).0 <==>
            (x.plan.active ==> Permits(x, m.id) && m.stop.Some? && ArgumentsValid(x.json, m.calls))
  {
    hide SM.Holds, Sound, A.Content, A.ToolsValid, ArgumentsValid, S.Persist;
    HeldHead(a, m);
    ToolsValidExactly(x.json, a, m);
    if a.stop.Some? {
      HeldEncodable(a, m);
      S.PersistSucceeds(store, x.plan, A.Closed(a, x.plan, A.Content(a)), x.faults);
    }
  }

  // ---------------------------------------------------------------- the theorems

  lemma EmittedArePlain(json: Json, frames: seq<G.Frame>, events: seq<Event>)
    requires events == G.DecodeFrames(json, frames).state.emitted
    ensures forall k :: 0 <= k < |events| ==> SM.PlainStart(events[k])
  {
    P.DecoderEmits(json, frames);
  }

  /** Nothing the decoder emits is refused, but for a content-filter stop. */
  lemma EmittedPassGate(e: Event, allowRefusal: bool)
    requires P.Emittable(e)
    ensures Gates.GeminiToResponses(e, allowRefusal) <==> (e.ResponseStop? && e.reason == ContentFilter ==> allowRefusal)
  {
  }

  /** The stop of a run is the stop of its message. */
  lemma {:induction false} StopOfRun(events: seq<Event>, k: nat)
    requires C.Run(events).Some? && k < |events| && events[k].ResponseStop?
    ensures C.Run(events).value.stop == Some(events[k].reason)
  {
    var before, e := events[..|events| - 1], events[|events| - 1];
    if k < |events| - 1 {
      C.RunWellFormed(before);
      StopOfRun(before, k);
      AfterStop(C.Run(before).value, e);
    }
  }

  lemma {:induction false} StopComesFromEvent(events: seq<Event>) returns (k: nat)
    requires C.Run(events).Some? && C.Run(events).value.stop.Some?
    ensures k < |events| && events[k].ResponseStop? && C.Run(events).value.stop == Some(events[k].reason)
  {
    var before, e := events[..|events| - 1], events[|events| - 1];
    if e.ResponseStop? {
      k := |events| - 1;
    } else {
      var m := C.Run(before).value;
      if m.stop.None? {
        KeepsRunning(m, e);
      } else {
        k := StopComesFromEvent(before);
        C.RunWellFormed(before);
        AfterStop(m, e);
      }
    }
  }

  lemma GatesPass(json: Json, frames: seq<G.Frame>, allowRefusal: bool)
    requires var events := G.DecodeFrames(json, frames).state.emitted; C.Run(events).Some?
    ensures var events := G.DecodeFrames(json, frames).state.emitted;
            (forall k :: 0 <= k < |events| ==> Gates.GeminiToResponses(events[k], allowRefusal)) <==>
            (C.Run(events).value.stop == Some(ContentFilter) ==> allowRefusal)
  {
    hide C.Run, Gates.GeminiToResponses, P.Emittable;
    var events := G.DecodeFrames(json, frames).state.emitted;
    P.DecoderEmits(json, frames);
    forall k | 0 <= k < |events|
      ensures Gates.GeminiToResponses(events[k], allowRefusal) <==>
              (events[k].ResponseStop? && events[k].reason == ContentFilter ==> allowRefusal)
    {
      EmittedPassGate(events[k], allowRefusal);
      if events[k].ResponseStop? {
        StopOfRun(events, k);
      }
    }
    if C.Run(events).value.stop.Some? {
      var k := StopComesFromEvent(events);
    }
    forall k | 0 <= k < |events| && events[k].ResponseStop?
      ensures C.Run(events).value.stop == Some(events[k].reason)
    {
      StopOfRun(events, k);
    }
  }

  /** A stream that lets content follow its stop is not accepted by the encoder. */
  lemma TrespassRefused(c: E.Config, events: seq<Event>)
    requires P.Trespasses(events)
    requires forall k :: 0 <= k < |events| ==> Gates.GeminiToResponses(events[k], c.refusal)
    ensures !E.AcceptsAll(c, events)
  {
    hide C.Apply, M.Mirrors, Gates.GeminiToResponses, Gates.IntoResponses, E.Encode;
    var k :| 0 <= k < |events| && P.TrespassAt(events, k);
    var m := C.Run(events[..k]).value;
    Gates.GeminiIsCarried(events, c.refusal);
    M.EncoderMirrors(c, events[..k]);
    RefusesAfterStop(c, E.EncodeAll(c, events[..k]), m, events[k]);
    assert events[..k + 1][..k] == events[..k];
    if E.AcceptsAll(c, events) {
      AcceptsPrefix(c, events, k + 1);
    }
  }

  lemma {:induction false} AcceptsPrefix(c: E.Config, events: seq<Event>, n: nat)
    requires n <= |events| && E.AcceptsAll(c, events)
    ensures E.AcceptsAll(c, events[..n])
  {
    if n < |events| {
      assert events[..|events| - 1][..n] == events[..n];
      AcceptsPrefix(c, events[..|events| - 1], n);
    } else {
      assert events[..n] == events;
    }
  }

  lemma RefusesAfterStop(c: E.Config, s: E.State, m: C.Message, e: Event)
    requires M.Mirrors(c, s, m) && m.stop.Some? && !e.UsageReport?
    ensures !E.Encode(c, s, e).ok
  {
    assert m.open == {};
    assert forall i :: i !in s.blocks;
  }

  /** What was read can be persisted, if the request asks for that. */
  predicate Savable(x: Setting, r: G.Reading) {
    x.plan.active ==> Permits(x, r.id) && r.stop.Some? && ArgumentsValid(x.json, r.doc.calls)
  }

  /** The condition under which an unbuffered transform of a readable stream succeeds. */
  predicate Deliverable(x: Setting, r: G.Reading) {
    r.started ==> r.stop.Some? && r.stop != Some(ContentFilter) && Savable(x, r)
  }

  lemma {:induction false} KnownStop(json: Json, frames: seq<G.Frame>)
    requires G.Read(json, frames).Some?
    ensures G.Read(json, frames).value.stop != Some(Unknown)
  {
    hide G.AddParts;
    if frames != [] {
      KnownStop(json, frames[..|frames| - 1]);
    }
  }

  /** For a readable stream that is finished, or empty. */
  lemma SavesExactly(x: Setting, store: S.Store, frames: seq<G.Frame>)
    requires G.Read(x.json, frames).Some?
    ensures Saves(x, store, G.DecodeFrames(x.json, frames).state.emitted) <==> Savable(x, G.Read(x.json, frames).value)
  {
    hide C.Run, C.Apply, G.DecodeFrames, G.Read, SM.Holds, Sound, A.PersistStream, A.ObserveAll, C.Numbered, Permits,
         SM.PlainStart;
    var d := G.DecodeFrames(x.json, frames);
    var events := d.state.emitted;
    P.DecoderMeansReading(x.json, frames);
    KnownStop(x.json, frames);
    EmittedArePlain(x.json, frames, events);
    var m := C.Run(events).value;
    C.RunWellFormed(events);
    C.RunNumbered(events);
    TracksSound(d.state, m);
    SM.AccumulatorHolds(events);
    PersistsExactly(x, store, A.ObserveAll(events).state, m);
  }

  /** For every stream whatsoever: the unbuffered transform succeeds exactly when the chunks can be
      read, the stream is empty or finished for another reason than a refusal, and it can be persisted:
      it has an id, its arguments are valid, and no write the request asks for is refused; then the client
      has been shown the whole message and the record agrees with it, the usage reported by the finish
      included. */
  lemma TransformTheorem(x: Setting, store: S.Store, frames: seq<G.Frame>)
    ensures var t, reading := Transform(x, store, frames), G.Read(x.json, frames);
            && (t.ok <==> reading.Some? && Deliverable(x, reading.value))
            && (t.ok && reading.value.started ==>
                  exists m, r ::
                    && C.WellFormed(m) && P.Means(m, reading.value)
                    && Delivered(x.plan, false, U.Shown(frames), m, t.pipe, r) && r.usage == U.Shown(frames)
                    && Remembers(x.plan, store, t.pipe.store, m))
  {
    hide C.Run, C.Apply, RelayAll, Gates.GeminiToResponses, G.DecodeFrames, G.Read, Saves, M.Mirrors, SM.Holds, Sound,
         Remembers;
    var d, reading := G.DecodeFrames(x.json, frames), G.Read(x.json, frames);
    var events := d.state.emitted;
    P.DecoderMeansReading(x.json, frames);
    EmittedArePlain(x.json, frames, events);
    var relayed := RelayAll(x, store, events);
    if relayed.ok {
      RelaySplits(x, store, events);
    }
    if reading.None? {
      if d.ok && relayed.ok {
        TrespassRefused(Cfg(x.plan, false), events);
      }
    } else {
      var m := C.Run(events).value;
      C.RunWellFormed(events);
      TracksSound(d.state, m);
      GatesPass(x.json, frames, false);
      SavesExactly(x, store, frames);
      if relayed.ok {
        RelayDelivers(x, store, events);
        if m.stop.Some? {
          SavedWhenRelayed(x, store, events);
          var r: E.Snapshot :| Delivered(x.plan, false, r.usage, m, relayed.pipe, r);
          var shown := EncoderShows(Cfg(x.plan, false), events);
          SameShown(Cfg(x.plan, false), m, relayed.pipe.encoder.written, r, shown);
          if d.ok && reading.value.started {
            U.ShownAtStop(x.json, frames);
            assert Delivered(x.plan, false, U.Shown(frames), m, relayed.pipe, r);
          }
        }
      } else if Deliverable(x, reading.value) && (m.stop.Some? ==> Saves(x, store, events)) {
        RelaySucceeds(x, store, events);
      }
    }
  }

  lemma SameShown(c: E.Config, m: C.Message, written: seq<E.Wire>, r: E.Snapshot, q: E.Snapshot)
    requires C.WellFormed(m) && Shows(c, m, written, r) && Shows(c, m, written, q)
    ensures r == q
  {
  }

  /** A transform that relays the stop has saved the record. */
  lemma {:induction false} SavedWhenRelayed(x: Setting, store: S.Store, events: seq<Event>)
    requires RelayAll(x, store, events).ok && C.Run(events).Some? && C.Run(events).value.stop.Some?
    requires forall k :: 0 <= k < |events| ==> SM.PlainStart(events[k])
    ensures Saves(x, store, events)
  {
    hide C.Apply, A.PersistStream, A.Observe, E.Encode, M.Mirrors, SM.Holds;
    var before, e := events[..|events| - 1], events[|events| - 1];
    var m := C.Run(before).value;
    C.RunWellFormed(before);
    RelaySplits(x, store, before);
    if e.ResponseStop? {
      StopIsNew(m, e);
      RelayDelivers(x, store, before);
    } else if m.stop.None? {
      KeepsRunning(m, e);
    } else {
      AfterStop(m, e);
      SavedWhenRelayed(x, store, before);
      UsageOnly(A.ObserveAll(before).state, e);
      SavingIgnoresUsage(x, store, A.ObserveAll(before).state, A.ObserveAll(events).state.usage);
    }
  }

  // ---------------------------------------------------------------- the buffered transform

  /** After a stop the encoder's last word is the terminal event of the message. */
  lemma {:induction false} EncoderShows(c: E.Config, events: seq<Event>) returns (r: E.Snapshot)
    requires C.Run(events).Some? && C.Run(events).value.stop.Some? && Sound(C.Run(events).value)
    requires forall k :: 0 <= k < |events| ==> Gates.GeminiToResponses(events[k], c.refusal)
    ensures C.WellFormed(C.Run(events).value)
    ensures Shows(c, C.Run(events).value, E.EncodeAll(c, events).written, r)
    ensures r.usage == U.UsageAtStop(events)
  {
    hide C.Apply, M.Mirrors, Gates.GeminiToResponses, Gates.IntoResponses, Sound, C.WellFormed, E.Encode;
    var before, e := events[..|events| - 1], events[|events| - 1];
    var m, s := C.Run(before).value, E.EncodeAll(c, before);
    C.RunWellFormed(before);
    C.RunWellFormed(events);
    Gates.GeminiIsCarried(events, c.refusal);
    M.EncoderMirrors(c, before);
    M.StepMirrors(c, s, m, e);
    if e.ResponseStop? {
      r := ShowStop(c, s, m, e);
      MirroredUsage(c, s, m);
    } else {
      if m.stop.None? {
        KeepsRunning(m, e);
      }
      AfterStop(m, e);
      SoundIgnoresUsage(m, C.Run(events).value);
      r := EncoderShows(c, before);
      UsageWritesNothing(c, s, e);
      ShowsIgnoresUsage(c, m, C.Run(events).value, s.written, r);
    }
  }

  lemma {:induction false} LastStopIsStop(events: seq<Event>)
    requires C.Run(events).Some?
    ensures LastStopRefuses(events) <==> C.Run(events).value.stop == Some(ContentFilter)
  {
    if events != [] {
      var before, e := events[..|events| - 1], events[|events| - 1];
      var m := C.Run(before).value;
      LastStopIsStop(before);
      C.RunWellFormed(before);
      if !e.ResponseStop? && m.stop.None? {
        KeepsRunning(m, e);
      } else if m.stop.Some? {
        AfterStop(m, e);
      }
    }
  }

  predicate Refused(r: G.Reading) {
    r.stop == Some(ContentFilter)
  }

  /** For every stream whatsoever, refusals included: the buffered transform succeeds exactly when the
      chunks can be read, the stream is empty or finished, and it can be persisted; then the
      client has been shown the whole message, as a refusal if it is one, and the record agrees. Their
      usages agree exactly when the usage reported by the finish is the last one reported. */
  lemma BufferedTransformTheorem(x: Setting, store: S.Store, frames: seq<G.Frame>)
    ensures var t, reading := TransformBuffered(x, store, frames), G.Read(x.json, frames);
            && (t.ok <==>
                  && reading.Some? && (reading.value.started ==> reading.value.stop.Some?)
                  && Savable(x, reading.value))
            && (t.ok && reading.value.started ==>
                  exists m, r ::
                    && C.WellFormed(m) && P.Means(m, reading.value)
                    && Delivered(x.plan, Refused(reading.value), U.Reported(frames), m, t.pipe, r)
                    && r.usage == U.Shown(frames) && Remembers(x.plan, store, t.pipe.store, m)
                    && (x.plan.active && x.plan.store ==>
                          (t.pipe.store.responses[r.id].payload.usage == r.usage <==> U.Shown(frames) == U.Reported(frames))))
  {
    hide C.Run, C.Apply, Gates.GeminiToResponses, G.DecodeFrames, G.Read, M.Mirrors, SM.Holds, Sound, A.PersistStream,
         Shows, StoredAgrees, Remembers;
    var d, reading := G.DecodeFrames(x.json, frames), G.Read(x.json, frames);
    var events := d.state.emitted;
    P.DecoderMeansReading(x.json, frames);
    EmittedArePlain(x.json, frames, events);
    if reading.None? {
      if d.ok && forall k :: 0 <= k < |events| ==> Gates.GeminiToResponses(events[k], true) {
        BufferedTrespass(events, LastStopRefuses(events), x.plan);
      }
    } else {
      var m := C.Run(events).value;
      C.RunWellFormed(events);
      TracksSound(d.state, m);
      GatesPass(x.json, frames, true);
      SavesExactly(x, store, frames);
      SM.AccumulatorHolds(events);
      LastStopIsStop(events);
      var c := Cfg(x.plan, LastStopRefuses(events));
      GatesPass(x.json, frames, c.refusal);
      Gates.GeminiIsCarried(events, c.refusal);
      M.EncoderMirrors(c, events);
      if TransformBuffered(x, store, frames).ok && reading.value.started {
        assert c.refusal == Refused(reading.value);
        U.ReadingReports(x.json, frames);
        U.ShownAtStop(x.json, frames);
        var r := BufferedDelivers(x, store, events, c.refusal);
        assert Delivered(x.plan, Refused(reading.value), U.Reported(frames), m, TransformBuffered(x, store, frames).pipe, r);
      }
    }
  }

  /** What is written of a finished stream, and saved beforehand. */
  lemma BufferedDelivers(x: Setting, store: S.Store, events: seq<Event>, refusal: bool) returns (r: E.Snapshot)
    requires C.Run(events).Some? && C.Run(events).value.stop.Some? && Sound(C.Run(events).value)
    requires forall k :: 0 <= k < |events| ==> Gates.GeminiToResponses(events[k], refusal) && SM.PlainStart(events[k])
    requires A.ObserveAll(events).ok && Saves(x, store, events)
    requires refusal == (C.Run(events).value.stop.value == ContentFilter)
    ensures C.WellFormed(C.Run(events).value) && r.usage == U.UsageAtStop(events)
    ensures var a := A.ObserveAll(events).state;
            var p := Pipe(E.EncodeAll(Cfg(x.plan, refusal), events), a, A.PersistStream(x.json, a, store, x.plan, x.faults).1);
            && Delivered(x.plan, refusal, C.Run(events).value.usage, C.Run(events).value, p, r)
            && Remembers(x.plan, store, p.store, C.Run(events).value)
  {
    hide C.Run, Gates.GeminiToResponses, M.Mirrors, SM.Holds, Sound, A.PersistStream, Shows, StoredAgrees, A.ObserveAll,
         E.EncodeAll, U.UsageAtStop, Remembers;
    var c, m, a := Cfg(x.plan, refusal), C.Run(events).value, A.ObserveAll(events).state;
    SM.AccumulatorHolds(events);
    HeldHead(a, m);
    r := EncoderShows(c, events);
    ShowsPlan(x.plan, refusal, m, E.EncodeAll(c, events).written, r);
    StreamRemembered(x, store, a, m);
    if x.plan.active && x.plan.store {
      SaveAgrees(x, store, refusal, a, m, E.EncodeAll(c, events).written, r);
    }
  }

  lemma FilterStopRefused(c: E.Config, events: seq<Event>, k: nat)
    requires k < |events| && !c.refusal && events[k].ResponseStop? && events[k].reason == ContentFilter
    ensures !E.AcceptsAll(c, events)
  {
    assert events[..k + 1][..k] == events[..k];
    assert !E.AcceptsAll(c, events[..k + 1]);
    if E.AcceptsAll(c, events) {
      AcceptsPrefix(c, events, k + 1);
    }
  }

  /** What trespasses is refused in either mode. */
  lemma BufferedTrespass(events: seq<Event>, refusal: bool, plan: S.Plan)
    requires P.Trespasses(events)
    requires forall k :: 0 <= k < |events| ==> Gates.GeminiToResponses(events[k], true)
    ensures !E.AcceptsAll(Cfg(plan, refusal), events)
  {
    if forall k :: 0 <= k < |events| ==> Gates.GeminiToResponses(events[k], refusal) {
      TrespassRefused(Cfg(plan, refusal), events);
    } else {
      var k :| 0 <= k < |events| && !Gates.GeminiToResponses(events[k], refusal);
      FilterStopRefused(Cfg(plan, refusal), events, k);
    }
  }

  lemma UsageWritesNothing(c: E.Config, s: E.State, e: Event)
    requires e.UsageReport?
    ensures E.Encode(c, s, e).state.written == s.written
  {
  }

  lemma ShowsIgnoresUsage(c: E.Config, m: C.Message, n: C.Message, written: seq<E.Wire>, r: E.Snapshot)
    requires C.WellFormed(m) && n == m.(usage := n.usage) && Shows(c, m, written, r)
    ensures C.WellFormed(n) && Shows(c, n, written, r)
  {
    assert M.Output(c, m) == M.Output(c, n);
  }

  /** A stream that reports its usage in a chunk behind the finishing one. */
  function CountedLate(usage: G.UsageMetadata): seq<G.Frame> {
    [G.Data(G.Chunk("r", "m", None, [G.Candidate([], "STOP")])), G.Data(G.Chunk("r", "m", Some(usage), []))]
  }

  lemma LateRead(json: Json, usage: G.UsageMetadata)
    ensures G.Read(json, CountedLate(usage)) ==
            Some(G.Reading(true, "r", "m", G.Doc([], []), G.Counts(usage), Some(EndTurn)))
    ensures U.Shown(CountedLate(usage)) == NO_USAGE && U.Reported(CountedLate(usage)) == G.Counts(usage)
  {
    var frames := CountedLate(usage);
    assert frames[..1] == [frames[0]] && frames[..1][..0] == [];
    assert G.Read(json, []) == Some(G.UNREAD) && U.Reported([]) == NO_USAGE;
    assert G.Read(json, frames[..1]) == Some(G.Reading(true, "r", "m", G.Doc([], []), NO_USAGE, Some(EndTurn)));
    assert U.Finishes(frames[..1][0]) && !U.Finished([]);
    assert U.Finished(frames[..1]) && U.Shown(frames[..1]) == NO_USAGE;
  }

  /** Such a stream is delivered, its record counts the usage, and the client was shown none. */
  lemma UsageComesLate(x: Setting, usage: G.UsageMetadata)
    requires x.plan.active && x.plan.store && x.plan.conversation.None? && !x.faults.response
    ensures var t := TransformBuffered(x, S.Store(map[], map[]), CountedLate(usage));
            && t.ok && |t.pipe.encoder.written| > 0
            && exists r: E.Snapshot ::
                 && t.pipe.encoder.written[|t.pipe.encoder.written| - 1].body == E.ResponseCompleted(r)
                 && r.usage == NO_USAGE && r.id in t.pipe.store.responses
                 && t.pipe.store.responses[r.id].payload.usage == G.Counts(usage)
  {
    var frames, store := CountedLate(usage), S.Store(map[], map[]);
    hide TransformBuffered, G.Read, G.DecodeFrames, U.Shown, U.Reported, CountedLate, M.Output, C.TextOf, StoredAgrees;
    LateRead(x.json, usage);
    BufferedTransformTheorem(x, store, frames);
  }
}
