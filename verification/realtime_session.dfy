/**
 One Realtime session bridged to Gemini Live: the bridge both goroutines share under a mutex, and the
 two transport loops around it.
 */
module RealtimeSession {
  import opened Llm
  import L = LiveDecoder
  import E = RealtimeEncoder
  import R = RealtimeRelay

  datatype Kind =
    | SessionStart | SessionUpdate | ItemCreate | AudioAppend | AudioCommit | AudioClear | ResponseCreate | ResponseCancel
    | UnknownKind

  /** A decoded client event. An item may come with any kind of event, so a tool result may too.
      `portable` says that the remaining checks of the gate pass, `encodes` those of the encoder. */
  datatype ClientEvent = ClientEvent(kind: Kind, toolResult: Option<string>, portable: bool, encodes: bool)

  datatype Payload = Setup | Turn | TurnComplete | AudioInput | AudioEnd | ToolResponse(id: string, name: string)

  // ---------------------------------------------------------------- the client encoder

  datatype Ordering = Ordering(setupSent: bool, contentSent: bool)

  predicate IsSetup(e: ClientEvent) {
    e.kind == SessionStart || e.kind == SessionUpdate
  }

  function EncodeClient(o: Ordering, e: ClientEvent, name: string): (r: (Option<Payload>, Ordering)) {
    if IsSetup(e) then
      if o.setupSent || o.contentSent || !e.encodes then (None, o) else (Some(Setup), o.(setupSent := true))
    else if e.kind == ItemCreate && e.toolResult.Some? then
      if !o.setupSent || e.toolResult.value == "" || name == "" then (None, o)
      else (Some(ToolResponse(e.toolResult.value, name)), o.(contentSent := true))
    else if e.kind == ItemCreate || e.kind == AudioAppend then
      if !o.setupSent || !e.encodes then (None, o)
      else (Some(if e.kind == ItemCreate then Turn else AudioInput), o.(contentSent := true))
    else if e.kind == AudioCommit then if !o.setupSent then (None, o) else (Some(AudioEnd), o)
    else if e.kind == ResponseCreate then
      if !o.setupSent then (None, o) else (Some(TurnComplete), o.(contentSent := true))
    else (None, o)
  }

  class LiveClientEncoder {
    var setupSent: bool
    var contentSent: bool

    constructor ()
      ensures Abs() == Ordering(false, false)
    {
      setupSent := false;
      contentSent := false;
    }

    function Abs(): Ordering
      reads this
    {
      Ordering(setupSent, contentSent)
    }

    method Encode(e: ClientEvent, name: string) returns (payload: Option<Payload>)
      modifies this
      ensures (payload, Abs()) == EncodeClient(old(Abs()), e, name)
    {
      if IsSetup(e) {
        if setupSent || contentSent || !e.encodes { return None; }
        setupSent := true;
        return Some(Setup);
      }
      if !setupSent { return None; }
      match e.kind
      case ItemCreate =>
        if e.toolResult.Some? {
          if e.toolResult.value == "" || name == "" { return None; }
          contentSent := true;
          return Some(ToolResponse(e.toolResult.value, name));
        }
        if !e.encodes { return None; }
        contentSent := true;
        return Some(Turn);
      case AudioAppend =>
        if !e.encodes { return None; }
        contentSent := true;
        return Some(AudioInput);
      case AudioCommit => return Some(AudioEnd);
      case ResponseCreate =>
        contentSent := true;
        return Some(TurnComplete);
      case _ => return None;
    }
  }

  // ---------------------------------------------------------------- the bridge

  datatype Bridge = Bridge(
    setupSent: bool, setupComplete: bool, ordering: Ordering, toolCalls: map<string, string>, pair: R.Pair)

  const NEW_BRIDGE := Bridge(false, false, Ordering(false, false), map[], R.FRESH)

  datatype Reply = Forward(payload: Payload) | SetupRequired | SetupPending | Refused

  predicate Passes(e: ClientEvent) {
    e.portable && e.kind !in {AudioClear, ResponseCancel, UnknownKind}
  }

  function ClientMessage(b: Bridge, e: ClientEvent): (Reply, Bridge) {
    if e.toolResult.Some? && e.toolResult.value !in b.toolCalls then (Refused, b)
    else
      var name := if e.toolResult.Some? then b.toolCalls[e.toolResult.value] else "";
      if !Passes(e) then (Refused, b)
      else if !b.setupSent && !IsSetup(e) then (SetupRequired, b)
      else if b.setupSent && !b.setupComplete && !IsSetup(e) then (SetupPending, b)
      else
        var (payload, ordering) := EncodeClient(b.ordering, e, name);
        if payload.None? then (Refused, b)
        else
          (Forward(payload.value),
           b.(ordering := ordering, setupSent := b.setupSent || IsSetup(e),
              toolCalls := if e.toolResult.Some? then b.toolCalls - {e.toolResult.value} else b.toolCalls))
  }

  /** The calls that are remembered: all up to the first without id or name. */
  function Stored(calls: seq<L.LiveCall>): seq<L.LiveCall> {
    if calls == [] || calls[0].id == "" || calls[0].name == "" then [] else [calls[0]] + Stored(calls[1..])
  }

  function Remember(toolCalls: map<string, string>, calls: seq<L.LiveCall>): map<string, string> {
    if calls == [] then toolCalls
    else Remember(toolCalls, calls[..|calls| - 1])[calls[|calls| - 1].id := calls[|calls| - 1].name]
  }

  function CallsOf(m: L.Message): seq<L.LiveCall> {
    if m.body.ToolCall? && m.body.calls.Some? then m.body.calls.value else []
  }

  /** Whether the message was translated, and the bridge afterwards; a message that fails late has
      already changed what was remembered. */
  function ServerMessage(f: L.Formats, model: string, b: Bridge, m: L.Message): (bool, Bridge) {
    if m.body.SetupComplete? && !b.setupSent then (false, b)
    else if m.body.GoAway? || m.body.Resumption? then (false, b)
    else
      var t := if m.body.SetupComplete? then b.(setupComplete := true) else b;
      var u := t.(toolCalls := Remember(t.toolCalls, Stored(CallsOf(m))));
      if m.body.ToolCall? && (m.body.calls.None? || |Stored(CallsOf(m))| < |CallsOf(m)|) then (false, u)
      else
        match R.Relay(f, model, u.pair, m)
        case None => (false, u)
        case Some(p) => (true, u.(pair := R.Pair(p.decoder.(events := []), p.encoder)))
  }

  lemma {:induction false} StoredPrefix(calls: seq<L.LiveCall>)
    ensures |Stored(calls)| <= |calls| && Stored(calls) == calls[..|Stored(calls)|]
    ensures |Stored(calls)| < |calls| ==> calls[|Stored(calls)|].id == "" || calls[|Stored(calls)|].name == ""
    ensures forall k :: 0 <= k < |Stored(calls)| ==> calls[k].id != "" && calls[k].name != ""
  {
    if !(calls == [] || calls[0].id == "" || calls[0].name == "") {
      StoredPrefix(calls[1..]);
    }
  }

  lemma {:induction false} EncodeFailureStands(e: E.State, events: seq<Event>, k: nat)
    requires k <= |events| && E.EncodeAll(e, events[..k]).None?
    ensures E.EncodeAll(e, events).None?
  {
    hide E.Encode;
    if k < |events| {
      assert events[..|events| - 1][..k] == events[..k];
      EncodeFailureStands(e, events[..|events| - 1], k);
    } else {
      assert events[..k] == events;
    }
  }

  class SessionBridge {
    const clientEncoder: LiveClientEncoder
    const streamDecoder: L.StreamDecoder
    const serverEncoder: E.ServerEncoder
    var setupSent: bool
    var setupComplete: bool
    var toolCalls: map<string, string>

    constructor (formats: L.Formats, model: string)
      ensures fresh(clientEncoder) && fresh(streamDecoder) && fresh(serverEncoder)
      ensures streamDecoder.formats == formats && streamDecoder.model == model
      ensures Abs() == NEW_BRIDGE
    {
      clientEncoder := new LiveClientEncoder();
      streamDecoder := new L.StreamDecoder(formats, model);
      serverEncoder := new E.ServerEncoder();
      setupSent := false;
      setupComplete := false;
      toolCalls := map[];
    }

    function Abs(): Bridge
      reads this, clientEncoder, streamDecoder, serverEncoder
    {
      Bridge(setupSent, setupComplete, clientEncoder.Abs(), toolCalls, R.Pair(streamDecoder.Abs([]), serverEncoder.Abs()))
    }

    method Client(e: ClientEvent) returns (reply: Reply)
      modifies this, clientEncoder
      ensures (reply, Abs()) == ClientMessage(old(Abs()), e)
    {
      var name := "";
      if e.toolResult.Some? {
        if e.toolResult.value !in toolCalls { return Refused; }
        name := toolCalls[e.toolResult.value];
      }
      if !Passes(e) { return Refused; }
      var isSetup := IsSetup(e);
      if !setupSent && !isSetup { return SetupRequired; }
      if setupSent && !setupComplete && !isSetup { return SetupPending; }
      var payload := clientEncoder.Encode(e, name);
      if payload.None? { return Refused; }
      if isSetup {
        setupSent := true;
      }
      if e.toolResult.Some? {
        toolCalls := toolCalls - {e.toolResult.value};
      }
      return Forward(payload.value);
    }

    method RememberToolCalls(calls: Option<seq<L.LiveCall>>) returns (ok: bool)
      modifies this`toolCalls
      ensures var all := if calls.Some? then calls.value else [];
              && ok == (calls.Some? && |Stored(all)| == |all|)
              && toolCalls == Remember(old(toolCalls), Stored(all))
    {
      if calls.None? { return false; }
      var all := calls.value;
      StoredPrefix(all);
      for k := 0 to |all|
        invariant k <= |Stored(all)| && toolCalls == Remember(old(toolCalls), all[..k])
      {
        if all[k].id == "" || all[k].name == "" { return false; }
        assert all[..k + 1][..k] == all[..k];
        toolCalls := toolCalls[all[k].id := all[k].name];
      }
      assert all[..|all|] == all;
      return true;
    }

    function Machines(): R.Pair
      reads streamDecoder, serverEncoder
    {
      R.Pair(streamDecoder.Abs([]), serverEncoder.Abs())
    }

    method RelayMessage(m: L.Message) returns (ok: bool)
      modifies streamDecoder, serverEncoder
      ensures var r := R.Relay(streamDecoder.formats, streamDecoder.model, old(Machines()), m);
              && ok == r.Some?
              && (ok ==> Machines() == R.Pair(r.value.decoder.(events := []), r.value.encoder))
    {
      hide L.Convert, E.Encode;
      var events;
      ghost var encoder := serverEncoder.Abs();
      ok, events := streamDecoder.Decode(m);
      if !ok { return false; }
      ghost var decoder := streamDecoder.Abs(events);
      for k := 0 to |events|
        invariant E.EncodeAll(encoder, events[..k]) == Some(serverEncoder.Abs())
        invariant streamDecoder.Abs(events) == decoder
      {
        assert events[..k + 1][..k] == events[..k];
        var encoded := serverEncoder.EncodeEvent(events[k]);
        if !encoded {
          EncodeFailureStands(encoder, events, k + 1);
          return false;
        }
      }
      assert events[..|events|] == events;
      return true;
    }

    /** After a failure only the ordering flags and the remembered calls still matter. */
    method Server(m: L.Message) returns (ok: bool)
      modifies this, streamDecoder, serverEncoder
      ensures var (done, b) := ServerMessage(streamDecoder.formats, streamDecoder.model, old(Abs()), m);
              ok == done && Abs().(pair := b.pair) == b && (ok ==> Abs() == b)
    {
      hide Remember, Stored, R.Relay;
      if m.body.SetupComplete? {
        if !setupSent { return false; }
        setupComplete := true;
      }
      if m.body.GoAway? || m.body.Resumption? { return false; }
      NothingStored(toolCalls);
      StoredPrefix(CallsOf(m));
      if m.body.ToolCall? {
        ok := RememberToolCalls(m.body.calls);
        if !ok { return false; }
      }
      ok := RelayMessage(m);
    }
  }

  lemma NothingStored(toolCalls: map<string, string>)
    ensures Stored([]) == [] && Remember(toolCalls, []) == toolCalls
  {
  }

  // ---------------------------------------------------------------- the two loops

  datatype ClientLoop =
    | ClientReading
    | ClientHolding(event: ClientEvent, waited: bool)
    | ClientWaiting(event: ClientEvent)
    | ClientWriting(payload: Payload)
    | ClientStopped

  datatype ServerLoop = ServerReading | ServerHolding(message: L.Message) | ServerSignalling | ServerStopped

  /** `setupReady` is the channel, once closed. The rest is a record of the session: the events read from
      the client, those translated and what they became, what of that was written to Gemini, and the calls
      that were stored. */
  datatype Session = Session(
    bridge: Bridge, setupReady: bool, client: ClientLoop, server: ServerLoop,
    read: seq<ClientEvent>, handled: seq<ClientEvent>, sent: seq<Payload>, upstream: seq<Payload>, remembered: seq<L.LiveCall>)

  const OPENED := Session(NEW_BRIDGE, false, ClientReading, ServerReading, [], [], [], [], [])

  datatype Action =
    | ClientReads(event: ClientEvent)
    | ClientTranslates
    | ClientWakes
    | ClientWrites
    | ClientFails
    | ServerReads(message: L.Message)
    | ServerTranslates
    | ServerSignals
    | ServerFails

  function Translated(s: Session, event: ClientEvent, waited: bool): Session {
    var (reply, bridge) := ClientMessage(s.bridge, event);
    match reply
    case Forward(payload) =>
      s.(bridge := bridge, client := ClientWriting(payload), handled := s.handled + [event], sent := s.sent + [payload])
    case SetupPending => s.(client := ClientWaiting(event))
    case _ => s.(client := ClientStopped)
  }

  function Served(f: L.Formats, model: string, s: Session, m: L.Message): Session {
    var (ok, bridge) := ServerMessage(f, model, s.bridge, m);
    var stored := if m.body.GoAway? || m.body.Resumption? then [] else Stored(CallsOf(m));
    s.(bridge := bridge, server := if ok then ServerSignalling else ServerStopped, remembered := s.remembered + stored)
  }

  /** One step of either loop. */
  function Perform(f: L.Formats, model: string, s: Session, a: Action): Option<Session> {
    match (a, s.client, s.server)
    case (ClientReads(event), ClientReading, _) => Some(s.(client := ClientHolding(event, false), read := s.read + [event]))
    case (ClientTranslates, ClientHolding(event, waited), _) => Some(Translated(s, event, waited))
    case (ClientWakes, ClientWaiting(event), _) => if s.setupReady then Some(s.(client := ClientHolding(event, true))) else None
    case (ClientWrites, ClientWriting(payload), _) =>
      Some(s.(client := ClientReading, upstream := s.upstream + [payload]))
    case (ClientFails, _, _) => Some(s.(client := ClientStopped))
    case (ServerReads(m), _, ServerReading) => Some(s.(server := ServerHolding(m)))
    case (ServerTranslates, _, ServerHolding(m)) => Some(Served(f, model, s, m))
    case (ServerSignals, _, ServerSignalling) =>
      Some(s.(server := ServerReading, setupReady := s.setupReady || s.bridge.setupComplete))
    case (ServerFails, _, _) => Some(s.(server := ServerStopped))
    case _ => None
  }

  function Run(f: L.Formats, model: string, actions: seq<Action>): Option<Session> {
    if actions == [] then Some(OPENED)
    else
      match Run(f, model, actions[..|actions| - 1])
      case None => None
      case Some(s) => Perform(f, model, s, actions[|actions| - 1])
  }

  // ---------------------------------------------------------------- ordering

  /** Which payload an event may become. */
  predicate Carries(p: Payload, e: ClientEvent) {
    match p
    case Setup => IsSetup(e)
    case ToolResponse(id, _) => e.kind == ItemCreate && e.toolResult == Some(id)
    case Turn => e.kind == ItemCreate && e.toolResult.None?
    case TurnComplete => e.kind == ResponseCreate
    case AudioInput => e.kind == AudioAppend
    case AudioEnd => e.kind == AudioCommit
  }

  ghost predicate Flags(s: Session) {
    && s.bridge.setupSent == s.bridge.ordering.setupSent
    && (s.bridge.ordering.contentSent ==> s.bridge.setupSent)
    && (s.bridge.setupComplete ==> s.bridge.setupSent)
    && (s.setupReady ==> s.bridge.setupComplete)
    && (s.client.ClientHolding? && s.client.waited ==> s.bridge.setupComplete)
  }

  /** One setup first, and nothing else before Gemini confirmed it. */
  ghost predicate Ordered(s: Session) {
    && |s.sent| == |s.handled|
    && (forall k :: 0 <= k < |s.sent| ==> Carries(s.sent[k], s.handled[k]))
    && (forall k :: 0 <= k < |s.sent| ==> (s.sent[k] == Setup <==> k == 0))
    && (s.bridge.setupSent <==> s.sent != [])
    && (|s.sent| > 1 ==> s.bridge.setupComplete)
  }

  predicate OnItsWay(s: Session) {
    if s.client.ClientWriting? then s.sent == s.upstream + [s.client.payload]
    else s.upstream <= s.sent && (!s.client.ClientStopped? ==> s.sent == s.upstream)
  }

  /** No event is skipped or repeated: all but the one in hand were translated, in the order read. */
  predicate InReadOrder(s: Session) {
    match s.client
    case ClientHolding(event, _) => s.read == s.handled + [event]
    case ClientWaiting(event) => s.read == s.handled + [event]
    case ClientStopped => s.handled <= s.read && |s.read| <= |s.handled| + 1
    case _ => s.read == s.handled
  }

  ghost predicate Sound(s: Session) {
    Flags(s) && Ordered(s) && OnItsWay(s) && InReadOrder(s)
  }

  lemma ClientMessageOrdered(b: Bridge, e: ClientEvent)
    requires b.setupSent == b.ordering.setupSent && (b.ordering.contentSent ==> b.setupSent)
    ensures var (reply, c) := ClientMessage(b, e);
            && c.setupSent == c.ordering.setupSent && (c.ordering.contentSent ==> c.setupSent)
            && c.setupComplete == b.setupComplete
            && (!reply.Forward? ==> c == b)
            && (reply.Forward? ==>
                  && c.setupSent && Carries(reply.payload, e)
                  && (reply.payload == Setup <==> !b.setupSent)
                  && (reply.payload != Setup ==> b.setupComplete))
            && (reply.SetupPending? ==> b.setupSent && !b.setupComplete)
  {
  }

  /** An event of a kind that Gemini has something for, whose tool result, if any, answers a call that is due. */
  predicate Admitted(b: Bridge, e: ClientEvent) {
    && e.portable && e.kind != AudioClear && e.kind != ResponseCancel && e.kind != UnknownKind
    && (e.toolResult.Some? ==> e.toolResult.value in b.toolCalls)
  }

  /** The reply to every event in every state in which the flags agree, and what it changes. */
  lemma RepliesExactly(b: Bridge, e: ClientEvent)
    requires b.setupSent == b.ordering.setupSent && (b.ordering.contentSent ==> b.setupSent)
    ensures var (reply, c) := ClientMessage(b, e);
            var admitted, ready := Admitted(b, e), b.setupSent && b.setupComplete;
            var setup := e.kind == SessionStart || e.kind == SessionUpdate;
            && (reply == SetupRequired <==> admitted && !setup && !b.setupSent)
            && (reply == SetupPending <==> admitted && !setup && b.setupSent && !b.setupComplete)
            && (reply == Forward(Setup) <==> admitted && setup && !b.setupSent && e.encodes)
            && (reply == Forward(Turn) <==> admitted && ready && e.kind == ItemCreate && e.toolResult.None? && e.encodes)
            && (reply.Forward? && reply.payload.ToolResponse? <==>
                  admitted && ready && e.kind == ItemCreate && e.toolResult.Some? && e.toolResult.value != ""
                  && b.toolCalls[e.toolResult.value] != "")
            && (reply == Forward(AudioInput) <==> admitted && ready && e.kind == AudioAppend && e.encodes)
            && (reply == Forward(AudioEnd) <==> admitted && ready && e.kind == AudioCommit)
            && (reply == Forward(TurnComplete) <==> admitted && ready && e.kind == ResponseCreate)
            && (c.setupSent <==> b.setupSent || reply == Forward(Setup))
            && (c.ordering.contentSent <==>
                  b.ordering.contentSent || (reply.Forward? && reply.payload != Setup && reply.payload != AudioEnd))
            && (forall id :: id in c.toolCalls <==> id in b.toolCalls && !(reply.Forward? && e.toolResult == Some(id)))
  {
  }

  lemma {:induction false} RememberLast(toolCalls: map<string, string>, calls: seq<L.LiveCall>, id: string)
    ensures id in Remember(toolCalls, calls) <==> id in toolCalls || exists k :: 0 <= k < |calls| && calls[k].id == id
    ensures (forall k :: 0 <= k < |calls| ==> calls[k].id != id) && id in toolCalls ==>
              Remember(toolCalls, calls)[id] == toolCalls[id]
    ensures forall k :: 0 <= k < |calls| && calls[k].id == id && (forall j :: k < j < |calls| ==> calls[j].id != id) ==>
              Remember(toolCalls, calls)[id] == calls[k].name
  {
    if calls != [] {
      var init, last := calls[..|calls| - 1], calls[|calls| - 1];
      RememberLast(toolCalls, init, id);
      forall k | 0 <= k < |calls| && calls[k].id == id && (forall j :: k < j < |calls| ==> calls[j].id != id)
        ensures Remember(toolCalls, calls)[id] == calls[k].name
      {
        if k < |calls| - 1 {
          assert calls[|calls| - 1].id != id && init[k] == calls[k];
        }
      }
      assert (exists k :: 0 <= k < |calls| && calls[k].id == id) <==>
             (exists k :: 0 <= k < |init| && init[k].id == id) || last.id == id by {
        assert forall k :: 0 <= k < |init| ==> calls[k] == init[k];
      }
    }
  }

  /** The calls of a message that have both a name and an identifier, up to the first that lacks one. */
  predicate Nameable(m: L.Message) {
    m.body.ToolCall? ==>
      && m.body.calls.Some?
      && forall k :: 0 <= k < |m.body.calls.value| ==> m.body.calls.value[k].id != "" && m.body.calls.value[k].name != ""
  }

  /** A server message is taken exactly if it does not confirm a setup never sent, is neither a farewell nor a
      resumption, names its calls, and can be relayed; and what it leaves remembered. */
  lemma ServesExactly(f: L.Formats, model: string, b: Bridge, m: L.Message)
    ensures var (ok, c) := ServerMessage(f, model, b, m);
            && (ok <==> (m.body.SetupComplete? ==> b.setupSent) && !m.body.GoAway? && !m.body.Resumption?
                        && Nameable(m) && R.Relay(f, model, b.pair, m).Some?)
            && (c.setupComplete <==> b.setupComplete || (m.body.SetupComplete? && b.setupSent))
            && (m.body.ToolCall? && Nameable(m) ==>
                  forall id :: id in c.toolCalls <==>
                    id in b.toolCalls || exists k :: 0 <= k < |m.body.calls.value| && m.body.calls.value[k].id == id)
            && (!m.body.ToolCall? ==> c.toolCalls == b.toolCalls)
  {
    hide R.Relay, Stored, Remember;
    NothingStored(b.toolCalls);
    if m.body.ToolCall? && m.body.calls.Some? {
      StoredPrefix(CallsOf(m));
      if Nameable(m) {
        var calls := CallsOf(m);
        assert Stored(calls) == calls;
        forall id
          ensures id in Remember(b.toolCalls, calls) <==> id in b.toolCalls || exists k :: 0 <= k < |calls| && calls[k].id == id
        {
          RememberLast(b.toolCalls, calls, id);
        }
      }
    }
  }

  /** Which steps each loop can take, and where translating leads. */
  lemma LoopsMove(f: L.Formats, model: string, s: Session, a: Action)
    ensures Perform(f, model, s, a).Some? <==>
            match a
            case ClientReads(_) => s.client.ClientReading?
            case ClientTranslates => s.client.ClientHolding?
            case ClientWakes => s.client.ClientWaiting? && s.setupReady
            case ClientWrites => s.client.ClientWriting?
            case ServerReads(_) => s.server.ServerReading?
            case ServerTranslates => s.server.ServerHolding?
            case ServerSignals => s.server.ServerSignalling?
            case ClientFails => true
            case ServerFails => true
    ensures a.ClientTranslates? && s.client.ClientHolding? ==>
              var t, reply := Perform(f, model, s, a).value, ClientMessage(s.bridge, s.client.event).0;
              t.client == if reply.Forward? then ClientWriting(reply.payload)
                          else if reply.SetupPending? then ClientWaiting(s.client.event) else ClientStopped
    ensures a.ServerTranslates? && s.server.ServerHolding? ==>
              var t := Perform(f, model, s, a).value;
              t.server == if ServerMessage(f, model, s.bridge, s.server.message).0 then ServerSignalling else ServerStopped
    ensures a.ServerSignals? && s.server.ServerSignalling? ==>
              var t := Perform(f, model, s, a).value;
              t.server.ServerReading? && (t.setupReady <==> s.setupReady || s.bridge.setupComplete)
  {
    hide ClientMessage, ServerMessage, Stored;
  }

  lemma ServerMessageOrdered(f: L.Formats, model: string, b: Bridge, m: L.Message)
    ensures var (ok, c) := ServerMessage(f, model, b, m);
            && c.setupSent == b.setupSent && c.ordering == b.ordering
            && (b.setupComplete ==> c.setupComplete) && (c.setupComplete ==> b.setupComplete || b.setupSent)
  {}

  lemma TranslateSound(s: Session, event: ClientEvent, waited: bool)
    requires Sound(s) && s.client == ClientHolding(event, waited)
    ensures Sound(Translated(s, event, waited))
  {
    hide ClientMessage;
    ClientMessageOrdered(s.bridge, event);
    var t := Translated(s, event, waited);
    forall k | 0 <= k < |t.sent| ensures Carries(t.sent[k], t.handled[k]) && (t.sent[k] == Setup <==> k == 0) {
      if k < |s.sent| {
        assert t.sent[k] == s.sent[k] && t.handled[k] == s.handled[k];
      }
    }
  }

  lemma StepSound(f: L.Formats, model: string, s: Session, a: Action)
    requires Perform(f, model, s, a).Some? && Sound(s)
    ensures Sound(Perform(f, model, s, a).value)
  {
    hide Translated, ServerMessage, Stored;
    if a.ClientTranslates? {
      TranslateSound(s, s.client.event, s.client.waited);
    } else if a.ServerTranslates? {
      ServerMessageOrdered(f, model, s.bridge, s.server.message);
    }
  }

  /** For every interleaving of the two loops: the flags of bridge and encoder agree, the first payload
      is the only setup, nothing follows it before `setupComplete`, and the client's order is kept. */
  lemma {:induction false} SessionSound(f: L.Formats, model: string, actions: seq<Action>)
    requires Run(f, model, actions).Some?
    ensures Sound(Run(f, model, actions).value)
  {
    hide Perform;
    if actions != [] {
      hide Sound;
      SessionSound(f, model, actions[..|actions| - 1]);
      StepSound(f, model, Run(f, model, actions[..|actions| - 1]).value, actions[|actions| - 1]);
    }
  }

  /** A pending reply changes nothing, and after its one wait an event is never put off again. */
  lemma RetriedOnce(f: L.Formats, model: string, actions: seq<Action>)
    requires Run(f, model, actions).Some? && Run(f, model, actions).value.client.ClientHolding?
    ensures var s := Run(f, model, actions).value;
            var t := Perform(f, model, s, ClientTranslates).value;
            t.client.ClientWaiting? ==> !s.client.waited && t == s.(client := ClientWaiting(s.client.event))
  {
    hide Run, ClientMessage, Ordered;
    SessionSound(f, model, actions);
    var s := Run(f, model, actions).value;
    ClientMessageOrdered(s.bridge, s.client.event);
  }

  // ---------------------------------------------------------------- tool results

  function Results(sent: seq<Payload>, id: string): nat {
    if sent == [] then 0
    else
      var last := sent[|sent| - 1];
      Results(sent[..|sent| - 1], id) + if last.ToolResponse? && last.id == id then 1 else 0
  }

  function Remembered(calls: seq<L.LiveCall>, id: string): nat {
    if calls == [] then 0
    else Remembered(calls[..|calls| - 1], id) + if calls[|calls| - 1].id == id then 1 else 0
  }

  lemma {:induction false} RememberedMore(calls: seq<L.LiveCall>, more: seq<L.LiveCall>, id: string)
    ensures Remembered(calls + more, id) == Remembered(calls, id) + Remembered(more, id)
  {
    if more == [] {
      assert calls + more == calls;
    } else {
      var init := more[..|more| - 1];
      assert (calls + more)[..|calls + more| - 1] == calls + init;
      RememberedMore(calls, init, id);
    }
  }

  lemma {:induction false} RememberStores(toolCalls: map<string, string>, calls: seq<L.LiveCall>, id: string)
    ensures id in Remember(toolCalls, calls) <==> id in toolCalls || Remembered(calls, id) > 0
  {
    if calls != [] {
      RememberStores(toolCalls, calls[..|calls| - 1], id);
    }
  }

  predicate Drops(e: ClientEvent, id: string) {
    e.toolResult == Some(id) && e.kind != ItemCreate
  }

  /** The results that came with an event of another kind. */
  function Lost(handled: seq<ClientEvent>, id: string): nat {
    if handled == [] then 0
    else Lost(handled[..|handled| - 1], id) + if Drops(handled[|handled| - 1], id) then 1 else 0
  }

  /** How often a call was answered or lost its answer, or is still due. */
  function Accounted(s: Session, id: string): nat {
    Results(s.sent, id) + Lost(s.handled, id) + if id in s.bridge.toolCalls then 1 else 0
  }

  /** All of it is backed by a call Gemini made, and no call that it made is forgotten. */
  ghost predicate Backed(s: Session, id: string) {
    && Accounted(s, id) <= Remembered(s.remembered, id)
    && (Remembered(s.remembered, id) > 0 ==> Accounted(s, id) > 0)
  }

  /** A result is taken off the calls that are due, and forwarded if and only if its event creates an item. */
  lemma ResultForwarded(b: Bridge, e: ClientEvent, id: string)
    requires e.toolResult == Some(id) && ClientMessage(b, e).0.Forward?
    ensures var (reply, c) := ClientMessage(b, e);
            && id in b.toolCalls && c.toolCalls == b.toolCalls - {id}
            && (reply.payload.ToolResponse? <==> e.kind == ItemCreate)
            && (reply.payload.ToolResponse? ==> reply.payload == ToolResponse(id, b.toolCalls[id]))
  {
  }

  lemma TranslateBacked(s: Session, event: ClientEvent, waited: bool, id: string)
    requires s.client == ClientHolding(event, waited) && Backed(s, id)
    ensures Backed(Translated(s, event, waited), id)
  {
    var t := Translated(s, event, waited);
    if t.client.ClientWriting? {
      assert t.sent[..|s.sent|] == s.sent && t.handled[..|s.handled|] == s.handled;
      if event.toolResult.Some? {
        ResultForwarded(s.bridge, event, event.toolResult.value);
      }
    }
  }

  lemma ServeBacked(f: L.Formats, model: string, s: Session, m: L.Message, id: string)
    requires Backed(s, id)
    ensures Backed(Served(f, model, s, m), id)
  {
    hide R.Relay, Stored, Results, Lost;
    var stored := Stored(CallsOf(m));
    RememberedMore(s.remembered, stored, id);
    RememberedMore(s.remembered, [], id);
    RememberStores(s.bridge.toolCalls, stored, id);
    NothingStored(s.bridge.toolCalls);
  }

  lemma StepBacked(f: L.Formats, model: string, s: Session, a: Action, id: string)
    requires Perform(f, model, s, a).Some? && Backed(s, id)
    ensures Backed(Perform(f, model, s, a).value, id)
  {
    hide Translated, Served, Results, Remembered, Lost;
    if a.ClientTranslates? {
      TranslateBacked(s, s.client.event, s.client.waited, id);
    } else if a.ServerTranslates? {
      ServeBacked(f, model, s, s.server.message, id);
    }
  }

  /** For every interleaving and every call id. */
  lemma {:induction false} ResultsAreBacked(f: L.Formats, model: string, actions: seq<Action>, id: string)
    requires Run(f, model, actions).Some?
    ensures Backed(Run(f, model, actions).value, id)
  {
    hide Perform;
    if actions != [] {
      ResultsAreBacked(f, model, actions[..|actions| - 1], id);
      StepBacked(f, model, Run(f, model, actions[..|actions| - 1]).value, actions[|actions| - 1], id);
    }
  }

  lemma {:induction false} NoneLost(handled: seq<ClientEvent>, id: string)
    ensures Lost(handled, id) == 0 <==> forall k :: 0 <= k < |handled| ==> !Drops(handled[k], id)
  {
    if handled != [] {
      NoneLost(handled[..|handled| - 1], id);
    }
  }

  /** For every interleaving: the result of a call that Gemini made once, and that is no longer due, was
      forwarded if and only if no event of another kind than item creation carried one. */
  lemma AnswerForwardedExactly(f: L.Formats, model: string, actions: seq<Action>, id: string)
    requires Run(f, model, actions).Some?
    requires Remembered(Run(f, model, actions).value.remembered, id) == 1
    requires id !in Run(f, model, actions).value.bridge.toolCalls
    ensures var s := Run(f, model, actions).value;
            Results(s.sent, id) == 1 <==> forall k :: 0 <= k < |s.handled| ==> !Drops(s.handled[k], id)
  {
    hide Run;
    ResultsAreBacked(f, model, actions, id);
    NoneLost(Run(f, model, actions).value.handled, id);
  }

  /** A tool result that arrives with an event of another kind is never forwarded, yet the call counts as
      answered: the real answer is then refused, whatever event brings it. */
  lemma AnswerLost(b: Bridge, e: ClientEvent, id: string, answer: ClientEvent)
    requires Drops(e, id) && ClientMessage(b, e).0.Forward? && answer.toolResult == Some(id)
    ensures var (reply, c) := ClientMessage(b, e);
            !reply.payload.ToolResponse? && id in b.toolCalls && ClientMessage(c, answer) == (Refused, c)
  {
    ResultForwarded(b, e, id);
  }

  /** Such an event: a request for a response that carries a tool result. */
  lemma ResponseRequestDrops(b: Bridge, id: string)
    requires b.setupSent && b.setupComplete && b.ordering.setupSent && id in b.toolCalls
    ensures var e := ClientEvent(ResponseCreate, Some(id), true, true);
            Drops(e, id) && ClientMessage(b, e).0 == Forward(TurnComplete)
  {
  }
}
