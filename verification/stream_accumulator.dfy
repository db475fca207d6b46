/** What is kept of a stream so that it can be stored under its id once it stops. */
module StreamAccumulator {
  import opened Llm
  import opened ResponseStore
  import Sorting

  datatype Tool = Tool(id: string, name: string, initial: string, arguments: string)

  datatype State = State(
    responseID: string, model: string, usage: Usage, stop: Option<StopReason>,
    text: map<int, string>, tools: map<int, Tool>, nonportable: bool)

  const INITIAL := State("", "", NO_USAGE, None, map[], map[], false)

  datatype Outcome = Outcome(ok: bool, state: State)

  function Observe(a: State, e: Event): Outcome {
    match e
    case ResponseStart(id, model) => Outcome(true, a.(responseID := id, model := model))
    case ContentStart(index, block) =>
      Outcome(true, if block.TextBlock? then a.(text := a.text[index := block.text]) else a.(nonportable := true))
    case TextDelta(index, text) =>
      if index !in a.text then Outcome(false, a)
      else Outcome(true, a.(text := a.text[index := a.text[index] + text]))
    case ToolCallStart(index, block) =>
      if !block.ToolCallBlock? then Outcome(false, a)
      else Outcome(true, a.(tools := a.tools[index := Tool(block.id, block.name, block.arguments, "")]))
    case ToolCallDelta(index, delta) =>
      if index !in a.tools || delta.None? then Outcome(false, a)
      else
        var t := a.tools[index];
        Outcome(true, a.(tools := a.tools[index := t.(arguments := t.arguments + delta.value.arguments)]))
    case UsageReport(usage) => Outcome(true, if usage.Some? then a.(usage := usage.value) else a)
    case ResponseStop(reason, _) => Outcome(true, a.(stop := Some(reason)))
    case ReasoningDelta(_, _) => Outcome(true, a.(nonportable := true))
    case _ => Outcome(true, a)
  }

  function ObserveAll(events: seq<Event>): Outcome {
    if events == [] then Outcome(true, INITIAL)
    else
      var r := ObserveAll(events[..|events| - 1]);
      if r.ok then Observe(r.state, events[|events| - 1]) else r
  }

  function Arguments(t: Tool): string {
    if t.arguments != "" then t.arguments else OrEmptyObject(t.initial)
  }

  /** Text wins where an index carries both. */
  function BlockOf(a: State, index: int): Block
    requires index in a.text || index in a.tools
  {
    if index in a.text then TextBlock(a.text[index])
    else ToolCallBlock(a.tools[index].id, a.tools[index].name, Arguments(a.tools[index]))
  }

  function Collect(a: State, indexes: seq<int>): seq<Block>
    requires forall k :: 0 <= k < |indexes| ==> indexes[k] in a.text || indexes[k] in a.tools
  {
    if indexes == [] then []
    else Collect(a, indexes[..|indexes| - 1]) + [BlockOf(a, indexes[|indexes| - 1])]
  }

  /** The indexes in increasing order, whatever order their blocks opened in. */
  ghost function Indexes(a: State): (r: seq<int>)
    ensures forall k :: 0 <= k < |r| ==> r[k] in a.text || r[k] in a.tools
  {
    Sorting.Sorted(a.text.Keys + a.tools.Keys)
  }

  ghost function Content(a: State): seq<Block> {
    Collect(a, Indexes(a)) + if a.nonportable then [ReasoningBlock("", "", "")] else []
  }

  predicate BlockValid(json: Json, a: State, index: int)
    requires index in a.text || index in a.tools
  {
    index in a.text || json.isValid(Arguments(a.tools[index]))
  }

  ghost predicate ToolsValid(json: Json, a: State) {
    forall k :: 0 <= k < |Indexes(a)| ==> BlockValid(json, a, Indexes(a)[k])
  }

  /** The response a stopped stream amounts to; its store and background flags are left unset. */
  function Closed(a: State, plan: Plan, content: seq<Block>): Response
    requires a.stop.Some?
  {
    Response(a.responseID, plan.previousID, plan.conversationID, false, false, a.model, content, a.stop.value, a.usage)
  }

  ghost function PersistStream(json: Json, a: State, store: Store, plan: Plan, faults: Faults): (bool, Store) {
    if !plan.active then (true, store)
    else if a.responseID == "" || !ToolsValid(json, a) || a.stop.None? then (false, store)
    else
      Persist(store, plan, Closed(a, plan, Content(a)), faults)
  }

  class Accumulator {
    var responseID: string
    var model: string
    var usage: Usage
    var stop: Option<StopReason>
    var text: map<int, string>
    var tools: map<int, Tool>
    var nonportable: bool

    constructor ()
      ensures Abs() == INITIAL
    {
      responseID, model, usage, stop, text, tools, nonportable := "", "", NO_USAGE, None, map[], map[], false;
    }

    function Abs(): State
      reads this
    {
      State(responseID, model, usage, stop, text, tools, nonportable)
    }

    method Watch(e: Event) returns (ok: bool)
      modifies this
      ensures Outcome(ok, Abs()) == Observe(old(Abs()), e)
    {
      ok := true;
      match e
      case ResponseStart(id, m) =>
        responseID := id;
        model := m;
      case ContentStart(index, block) =>
        if block.TextBlock? {
          text := text[index := block.text];
        } else {
          nonportable := true;
        }
      case TextDelta(index, delta) =>
        if index !in text { return false; }
        text := text[index := text[index] + delta];
      case ToolCallStart(index, block) =>
        if !block.ToolCallBlock? { return false; }
        tools := tools[index := Tool(block.id, block.name, block.arguments, "")];
      case ToolCallDelta(index, delta) =>
        if index !in tools || delta.None? { return false; }
        var tool := tools[index];
        tools := tools[index := tool.(arguments := tool.arguments + delta.value.arguments)];
      case UsageReport(u) =>
        if u.Some? {
          usage := u.value;
        }
      case ResponseStop(reason, _) => stop := Some(reason);
      case ReasoningDelta(_, _) => nonportable := true;
      case _ =>
    }

    /** The loop over the collected indexes. */
    method Gather(json: Json, indexes: seq<int>) returns (ok: bool, content: seq<Block>)
      requires forall k :: 0 <= k < |indexes| ==> indexes[k] in text || indexes[k] in tools
      ensures ok == forall k :: 0 <= k < |indexes| ==> BlockValid(json, Abs(), indexes[k])
      ensures ok ==> content == Collect(Abs(), indexes)
    {
      ghost var a := Abs();
      content := [];
      for k := 0 to |indexes|
        invariant content == Collect(a, indexes[..k])
        invariant forall j :: 0 <= j < k ==> BlockValid(json, a, indexes[j])
      {
        assert indexes[..k + 1][..k] == indexes[..k];
        var index := indexes[k];
        if index in text {
          content := content + [TextBlock(text[index])];
          continue;
        }
        var tool := tools[index];
        var arguments := tool.arguments;
        if |arguments| == 0 {
          arguments := tool.initial;
        }
        if |arguments| == 0 {
          arguments := "{}";
        }
        if !json.isValid(arguments) {
          assert !BlockValid(json, a, indexes[k]);
          return false, [];
        }
        content := content + [ToolCallBlock(tool.id, tool.name, arguments)];
      }
      assert indexes[..|indexes|] == indexes;
      return true, content;
    }

    method Contents(json: Json) returns (ok: bool, content: seq<Block>)
      ensures ok == ToolsValid(json, Abs())
      ensures ok ==> content == Content(Abs())
    {
      var indexes := Sorting.Sort(text.Keys + tools.Keys);
      assert indexes == Indexes(Abs());
      ok, content := Gather(json, indexes);
      if nonportable {
        content := content + [ReasoningBlock("", "", "")];
      }
    }

    method Save(json: Json, store: Store, plan: Plan, faults: Faults) returns (ok: bool, after: Store)
      ensures (ok, after) == PersistStream(json, Abs(), store, plan, faults)
    {
      if !plan.active { return true, store; }
      if responseID == "" { return false, store; }
      var valid, content := Contents(json);
      if !valid || stop.None? { return false, store; }
      var saved := Persist(store, plan, Closed(Abs(), plan, content), faults);
      return saved.0, saved.1;
    }
  }
}
