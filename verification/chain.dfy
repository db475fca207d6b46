/** Continuing responses and conversations over many turns. */
module Continuation {
  import opened Llm
  import opened ResponseStore
  import E = ResponsesEncoder

  /** A request that asks for state; its first `boundary` messages are instructions. */
  datatype Request = Request(
    messages: seq<ChatMessage>, boundary: int, previousID: string, conversationID: string, store: bool, background: bool)

  datatype Refusal = BadBoundary | NotFound | NotContinuable

  datatype Resolution = Resolved(upstream: seq<ChatMessage>, plan: Plan) | Refused(why: Refusal)

  function Planned(r: Request, prior: seq<ChatMessage>, conversation: Option<Conversation>): Resolution
    requires 0 <= r.boundary <= |r.messages|
  {
    var instructions, current := r.messages[..r.boundary], r.messages[r.boundary..];
    Resolved(instructions + prior + current,
             Plan(true, r.previousID, r.conversationID, r.store, r.background, prior + current, conversation))
  }

  function Resolve(store: Store, r: Request): Resolution {
    if r.boundary < 0 || r.boundary > |r.messages| then Refused(BadBoundary)
    else if r.conversationID != "" then
      if r.conversationID !in store.conversations then Refused(NotFound)
      else
        var c := store.conversations[r.conversationID];
        if !c.continuable then Refused(NotContinuable) else Planned(r, c.messages, Some(c))
    else if r.previousID != "" then
      if r.previousID !in store.responses then Refused(NotFound)
      else
        var record := store.responses[r.previousID];
        if !record.continuable then Refused(NotContinuable) else Planned(r, record.messages, None)
    else Planned(r, [], None)
  }

  /** The loop that separates what can be said again from what cannot. */
  method AssistantMessage(content: seq<Block>) returns (kept: seq<Block>, continuable: bool)
    ensures kept == PortableBlocks(content) && continuable == AllPortable(content)
  {
    kept, continuable := [], true;
    for k := 0 to |content|
      invariant kept == PortableBlocks(content[..k]) && continuable == AllPortable(content[..k])
    {
      assert content[..k + 1][..k] == content[..k];
      match content[k]
      case TextBlock(_) => kept := kept + [content[k]];
      case ToolCallBlock(_, _, _) => kept := kept + [content[k]];
      case _ =>
        assert !Portable(content[..k + 1][k]);
        continuable := false;
      assert AllPortable(content[..k + 1]) <==> AllPortable(content[..k]) && Portable(content[k]) by {
        assert forall j :: 0 <= j < k ==> content[..k + 1][j] == content[..k][j];
      }
    }
    assert content[..|content|] == content;
  }

  /** Where the text and the calls are. */
  function SaidAt(content: seq<Block>): seq<nat> {
    if content == [] then []
    else
      var last := |content| - 1;
      SaidAt(content[..last]) + if content[last].TextBlock? || content[last].ToolCallBlock? then [last] else []
  }

  lemma {:induction false} SaidExactly(content: seq<Block>)
    ensures var at := SaidAt(content);
            && (forall k :: 0 <= k < |at| ==> at[k] < |content| && (k > 0 ==> at[k - 1] < at[k]))
            && (forall i :: 0 <= i < |content| ==> (i in at <==> content[i].TextBlock? || content[i].ToolCallBlock?))
  {
    if content != [] {
      SaidExactly(content[..|content| - 1]);
    }
  }

  /** A reply is the assistant's text and calls, all of them in their order, or nothing if there are none;
      it is all there is exactly if there was nothing else. */
  lemma {:induction false} ReplyKeeps(content: seq<Block>)
    ensures var at := SaidAt(content);
            && |PortableBlocks(content)| == |at|
            && (forall k :: 0 <= k < |at| ==> at[k] < |content| && PortableBlocks(content)[k] == content[at[k]])
            && Reply(content) == if at == [] then [] else [ChatMessage(Assistant, PortableBlocks(content))]
    ensures AllPortable(content) <==> forall i :: 0 <= i < |content| ==> i in SaidAt(content)
  {
    SaidExactly(content);
    if content != [] {
      ReplyKeeps(content[..|content| - 1]);
    }
  }

  // ---------------------------------------------------------------- what a chain is

  /** One earlier turn: what was put in, without its instructions, and what came back. */
  datatype Link = Link(input: seq<ChatMessage>, reply: seq<Block>)

  /** The turns behind a record, oldest first, after the items a conversation was created with. */
  datatype Lineage = Lineage(items: seq<ChatMessage>, links: seq<Link>)

  const ROOT := Lineage([], [])

  /** A lineage as messages: each turn's input, then its reply without what cannot be said again. */
  function Spoken(items: seq<ChatMessage>, links: seq<Link>): seq<ChatMessage> {
    if links == [] then items
    else
      var last := links[|links| - 1];
      Spoken(items, links[..|links| - 1]) + last.input + Reply(last.reply)
  }

  function Transcript(l: Lineage): seq<ChatMessage> {
    Spoken(l.items, l.links)
  }

  predicate Sayable(l: Lineage) {
    forall k :: 0 <= k < |l.links| ==> AllPortable(l.links[k].reply)
  }

  function Extend(l: Lineage, input: seq<ChatMessage>, reply: seq<Block>): Lineage {
    l.(links := l.links + [Link(input, reply)])
  }

  lemma ExtendSpeaks(l: Lineage, input: seq<ChatMessage>, reply: seq<Block>)
    ensures Transcript(Extend(l, input, reply)) == Transcript(l) + input + Reply(reply)
    ensures Sayable(Extend(l, input, reply)) <==> Sayable(l) && AllPortable(reply)
  {}

  // ---------------------------------------------------------------- many turns

  /** The store, and beside it the lineage of everything in it, which no code reads. */
  datatype State = State(store: Store, responses: map<string, Lineage>, conversations: map<string, Lineage>)

  const EMPTY := State(Store(map[], map[]), map[], map[])

  /** As many messages a conversation may be created with. */
  const MAX_INITIAL := 20

  datatype Step =
    | Turn(request: Request, response: Response, faults: Faults)
    | CreateConversation(id: string, items: seq<ChatMessage>)
    | DeleteResponse(id: string)
    | DeleteConversation(id: string)

  /** What the request continues. */
  function Behind(s: State, r: Request): Lineage {
    if r.conversationID != "" then if r.conversationID in s.conversations then s.conversations[r.conversationID] else ROOT
    else if r.previousID != "" && r.previousID in s.responses then s.responses[r.previousID]
    else ROOT
  }

  /** Resolving, answering and persisting, with the lineages kept alongside. */
  function TakeTurn(s: State, r: Request, response: Response, f: Faults): State {
    match Resolve(s.store, r)
    case Refused(_) => s
    case Resolved(_, plan) =>
      var store := Persist(s.store, plan, response, f).1;
      var next := Extend(Behind(s, r), r.messages[r.boundary..], response.content);
      State(store,
            if plan.store && Persist(s.store, plan, response, f).0 then s.responses[E.NormalizeID(response.id) := next]
            else s.responses,
            if plan.conversation.Some? && !f.conversation && plan.conversation.value.id != ""
            then s.conversations[plan.conversation.value.id := next] else s.conversations)
  }

  function Perform(s: State, step: Step): State {
    match step
    case Turn(request, response, f) => TakeTurn(s, request, response, f)
    case CreateConversation(id, items) =>
      if id == "" || |items| > MAX_INITIAL then s
      else
        State(s.store.(conversations := s.store.conversations[id := Conversation(id, items, true)]), s.responses,
              s.conversations[id := Lineage(items, [])])
    case DeleteResponse(id) =>
      State(s.store.(responses := s.store.responses - {id}), s.responses - {id}, s.conversations)
    case DeleteConversation(id) =>
      State(s.store.(conversations := s.store.conversations - {id}), s.responses, s.conversations - {id})
  }

  function Run(steps: seq<Step>): State {
    if steps == [] then EMPTY else Perform(Run(steps[..|steps| - 1]), steps[|steps| - 1])
  }

  /** Every record holds its lineage's transcript, and is continuable exactly when all of it can be said. */
  ghost predicate RecordTold(s: State, id: string) {
    id in s.store.responses ==>
      && id in s.responses
      && s.store.responses[id].messages == Transcript(s.responses[id])
      && (s.store.responses[id].continuable <==> Sayable(s.responses[id]))
  }

  ghost predicate ConversationTold(s: State, id: string) {
    id in s.store.conversations ==>
      && id in s.conversations && s.store.conversations[id].id == id
      && s.store.conversations[id].messages == Transcript(s.conversations[id])
      && (s.store.conversations[id].continuable <==> Sayable(s.conversations[id]))
  }

  ghost predicate Told(s: State) {
    && (forall id :: RecordTold(s, id))
    && (forall id :: ConversationTold(s, id))
  }

  /** What a resolved request is sent upstream with, and what will be kept of it. */
  lemma ResolvesToChain(s: State, r: Request)
    requires Told(s) && Resolve(s.store, r).Resolved?
    ensures var l, resolved := Behind(s, r), Resolve(s.store, r);
            && 0 <= r.boundary <= |r.messages|
            && resolved.upstream == r.messages[..r.boundary] + Transcript(l) + r.messages[r.boundary..]
            && resolved.plan.history == Transcript(l) + r.messages[r.boundary..]
            && Sayable(l)
            && (resolved.plan.conversation.Some? ==> resolved.plan.conversation.value.id == r.conversationID)
            && resolved.plan.active && resolved.plan.store == r.store
  {
    assert RecordTold(s, r.previousID) && ConversationTold(s, r.conversationID);
  }

  /** When a request is resolved, and why not otherwise: a conversation is looked for before a response, and the
      instructions must be some of the messages. */
  lemma ResolvesExactly(store: Store, r: Request)
    ensures var resolved := Resolve(store, r);
            var bounded := 0 <= r.boundary <= |r.messages|;
            && (resolved == Refused(BadBoundary) <==> !bounded)
            && (resolved == Refused(NotFound) <==>
                  bounded && if r.conversationID != "" then r.conversationID !in store.conversations
                             else r.previousID != "" && r.previousID !in store.responses)
            && (resolved == Refused(NotContinuable) <==>
                  bounded && if r.conversationID != ""
                             then r.conversationID in store.conversations && !store.conversations[r.conversationID].continuable
                             else r.previousID != "" && r.previousID in store.responses
                                  && !store.responses[r.previousID].continuable)
            && (resolved.Resolved? ==>
                  var plan := resolved.plan;
                  && plan.active && plan.previousID == r.previousID && plan.conversationID == r.conversationID
                  && plan.store == r.store && plan.background == r.background
                  && (plan.conversation.Some? <==> r.conversationID != "")
                  && (plan.conversation.Some? ==> plan.conversation.value == store.conversations[r.conversationID]))
  {
  }

  /** What persisting leaves under each id. */
  lemma PersistWrites(store: Store, plan: Plan, r: Response, f: Faults)
    requires plan.active
    ensures var (ok, t) := Persist(store, plan, r, f);
            var told := plan.conversation.Some? && !f.conversation && plan.conversation.value.id != "";
            && (ok <==>
                  && (plan.conversation.Some? ==> told)
                  && (plan.store ==>
                        && r.stop != Unknown && !f.response
                        && forall k :: 0 <= k < |r.content| ==> Encodable(r.content[k])))
            && t.conversations ==
               (if told then
                  store.conversations[plan.conversation.value.id :=
                    plan.conversation.value.(messages := plan.history + Reply(r.content),
                                             continuable := AllPortable(r.content))]
                else store.conversations)
            && (!(plan.store && ok) ==> t.responses == store.responses)
            && (plan.store && ok ==>
                  var id := E.NormalizeID(r.id);
                  && id in t.responses && t.responses == store.responses[id := t.responses[id]]
                  && t.responses[id].messages == plan.history + Reply(r.content)
                  && t.responses[id].continuable == AllPortable(r.content)
                  && t.responses[id].status == t.responses[id].payload.status
                  && (t.responses[id].status == E.Incomplete <==> r.stop == MaxTokens)
                  && (t.responses[id].status != E.Incomplete ==> t.responses[id].status == E.Completed)
                  && (t.responses[id].retention.BackgroundRetention? <==> plan.background))
  {
    hide EncodeBlocks, Reply, AllPortable, E.NormalizeID;
    PersistSucceeds(store, plan, r, f);
  }

  /** What the stored response is served as: the one persisted, all of its content to be seen, in order. */
  lemma PayloadShows(store: Store, plan: Plan, r: Response, f: Faults)
    requires plan.active && plan.store && Persist(store, plan, r, f).0
    ensures var id, t := E.NormalizeID(r.id), Persist(store, plan, r, f).1;
            && id in t.responses
            && var p, refusal := t.responses[id].payload, r.stop == ContentFilter;
               && p.id == E.NormalizeID(id) && p.model == r.model && p.usage == r.usage
               && p.previousID == r.previousID && p.conversationID == r.conversationID
               && p.background == r.background && p.store == r.store
               && Sights(p.output) == ContentSights(refusal, r.content) && Neat(p.output)
               && p.outputText == if refusal then "" else ContentText(r.content)
  {
    hide EncodeBlocks, Reply, AllPortable, E.NormalizeID, Sights, Neat, ContentSights, ContentText, CallsOf, PartsOf;
    EncodingShows(r.stop == ContentFilter, r.content);
    EncodingSays(r.stop == ContentFilter, r.content);
  }

  lemma TurnTold(s: State, r: Request, response: Response, f: Faults)
    requires Told(s)
    ensures Told(TakeTurn(s, r, response, f))
  {
    hide Resolve, Persist, Transcript, Sayable, E.NormalizeID, Behind, Reply, AllPortable;
    if Resolve(s.store, r).Resolved? {
      var plan := Resolve(s.store, r).plan;
      ResolvesToChain(s, r);
      PersistWrites(s.store, plan, response, f);
      ExtendSpeaks(Behind(s, r), r.messages[r.boundary..], response.content);
      var t := TakeTurn(s, r, response, f);
      forall id ensures RecordTold(t, id) {
        assert RecordTold(s, id);
      }
      forall id ensures ConversationTold(t, id) {
        assert ConversationTold(s, id);
      }
    }
  }

  lemma StepTold(s: State, step: Step)
    requires Told(s)
    ensures Told(Perform(s, step))
  {
    hide TakeTurn;
    match step
    case Turn(request, response, f) => TurnTold(s, request, response, f);
    case _ =>
      var t := Perform(s, step);
      forall id ensures RecordTold(t, id) && ConversationTold(t, id) {
        assert RecordTold(s, id) && ConversationTold(s, id);
      }
  }

  lemma {:induction false} RunTold(steps: seq<Step>)
    ensures Told(Run(steps))
  {
    hide Perform;
    if steps != [] {
      hide Told;
      RunTold(steps[..|steps| - 1]);
      StepTold(Run(steps[..|steps| - 1]), steps[|steps| - 1]);
    }
  }

  /** After any number of turns: a request goes upstream as its own instructions, the inputs and replies
      of the turns behind it in order, and its own input. No instructions of an earlier turn are among
      them, and every reply behind it consists of text and tool calls alone. */
  lemma RequestContinuesChain(steps: seq<Step>, r: Request)
    requires Resolve(Run(steps).store, r).Resolved?
    ensures var l := Behind(Run(steps), r);
            && Resolve(Run(steps).store, r).upstream ==
               r.messages[..r.boundary] + Transcript(l) + r.messages[r.boundary..]
            && Sayable(l)
  {
    hide Run, Resolve, Transcript, Behind, Sayable;
    RunTold(steps);
    ResolvesToChain(Run(steps), r);
  }

  /** A stored response can be continued exactly when its reply and all replies behind it can be said. */
  lemma ContinuableMeansSayable(steps: seq<Step>, id: string)
    requires id in Run(steps).store.responses
    ensures id in Run(steps).responses
    ensures Run(steps).store.responses[id].continuable <==> Sayable(Run(steps).responses[id])
    ensures Run(steps).store.responses[id].messages == Transcript(Run(steps).responses[id])
  {
    hide Run, Transcript, Sayable;
    RunTold(steps);
    assert RecordTold(Run(steps), id);
  }

  /** Conversations begin with the items they were created with, which are few enough, and go on with turns. */
  ghost predicate Created(steps: seq<Step>, s: State, id: string) {
    id in s.store.conversations ==>
      && id in s.conversations && id != ""
      && CreateConversation(id, s.conversations[id].items) in steps && |s.conversations[id].items| <= 20
  }

  lemma StepCreated(steps: seq<Step>, s: State, step: Step)
    requires Told(s) && forall id :: Created(steps, s, id)
    ensures forall id :: Created(steps + [step], Perform(s, step), id)
  {
    hide Resolve, Transcript, Sayable, E.NormalizeID, Reply, AllPortable, TakeTurn;
    var t := Perform(s, step);
    forall id ensures Created(steps + [step], t, id) {
      assert Created(steps, s, id);
      if step.Turn? {
        TurnKeepsItems(s, step.request, step.response, step.faults, id);
      }
    }
  }

  lemma TurnKeepsItems(s: State, r: Request, response: Response, f: Faults, id: string)
    requires Told(s)
    ensures var t := TakeTurn(s, r, response, f);
            && (id in t.store.conversations <==> id in s.store.conversations)
            && (id in t.store.conversations ==>
                  id in s.conversations && id in t.conversations && t.conversations[id].items == s.conversations[id].items)
  {
    hide Persist, Transcript, Sayable, E.NormalizeID, Reply, AllPortable;
    assert ConversationTold(s, r.conversationID) && ConversationTold(s, id);
    if Resolve(s.store, r).Resolved? {
      PersistWrites(s.store, Resolve(s.store, r).plan, response, f);
    }
  }

  /** After any number of steps; and one that can be created is there, with its items and nothing else. */
  lemma {:induction false} ConversationsWereCreated(steps: seq<Step>, id: string, items: seq<ChatMessage>)
    ensures Created(steps, Run(steps), id)
    ensures id != "" && |items| <= 20 ==>
              var t := Run(steps + [CreateConversation(id, items)]);
              id in t.conversations && Transcript(t.conversations[id]) == items
              && id in t.store.conversations && t.store.conversations[id].messages == items
  {
    hide Told, Created;
    RunCreated(steps);
    assert (steps + [CreateConversation(id, items)])[..|steps|] == steps;
  }

  lemma {:induction false} RunCreated(steps: seq<Step>)
    ensures forall id :: Created(steps, Run(steps), id)
  {
    hide Perform;
    if steps != [] {
      hide Told, Created;
      var before := steps[..|steps| - 1];
      RunCreated(before);
      RunTold(before);
      StepCreated(before, Run(before), steps[|steps| - 1]);
      assert steps == before + [steps[|steps| - 1]];
    }
  }
}
