/** Server-sent events, read and written; a character stands for a byte. */
module Sse {

  datatype Event = Event(name: string, data: string)

  /** The scanner's buffer holds a line and its newline. */
  const MAX_LINE: nat := 0x40_0000
  const MAX_DATA: nat := 0x80_0000

  // ---------------------------------------------------------------- lines

  function IndexOf(s: string, c: char): (k: nat)
    ensures k <= |s| && (k < |s| ==> s[k] == c) && c !in s[..k]
    ensures k == |s| <==> c !in s
  {
    if s == "" then 0 else if s[0] == c then 0 else 1 + IndexOf(s[1..], c)
  }

  lemma {:induction false} IndexOfFirst(before: string, c: char, after: string)
    requires c !in before
    ensures IndexOf(before + [c] + after, c) == |before|
  {
    var s := before + [c] + after;
    if before == "" {
      assert s[0] == c;
    } else {
      assert s[1..] == before[1..] + [c] + after && s[0] == before[0];
      IndexOfFirst(before[1..], c, after);
    }
  }

  /** The lines of an input; what follows the last newline is a line only if it is not empty. */
  function Lines(input: string): seq<string>
    decreases |input|
  {
    var k := IndexOf(input, '\n');
    if k < |input| then [input[..k]] + Lines(input[k + 1..])
    else if input == "" then []
    else [input]
  }

  lemma LinesStep(line: string, rest: string)
    requires '\n' !in line
    ensures Lines(line + "\n" + rest) == [line] + Lines(rest)
  {
    IndexOfFirst(line, '\n', rest);
    var input := line + "\n" + rest;
    assert input[..|line|] == line && input[|line| + 1..] == rest;
  }

  /** Splitting keeps what follows the last newline even when it is empty. */
  function Split(data: string): (lines: seq<string>)
    ensures |lines| > 0
    decreases |data|
  {
    var k := IndexOf(data, '\n');
    if k < |data| then [data[..k]] + Split(data[k + 1..]) else [data]
  }

  function DropCR(line: string): string {
    if line != "" && line[|line| - 1] == '\r' then line[..|line| - 1] else line
  }

  // ---------------------------------------------------------------- reading

  datatype Reader = Reader(ok: bool, name: string, data: string, emitted: seq<Event>)

  const START := Reader(true, "", "", [])

  function Flush(r: Reader): Reader {
    if r.name == "" && r.data == "" then r
    else r.(name := "", data := "", emitted := r.emitted + [Event(r.name, r.data)])
  }

  function Append(data: string, value: string): string {
    if data == "" then value else data + "\n" + value
  }

  function HearField(r: Reader, field: string, value: string): Reader {
    if field == "event" then r.(name := value)
    else if field == "data" then
      if |Append(r.data, value)| > MAX_DATA then r.(ok := false) else r.(data := Append(r.data, value))
    else r
  }

  /** A line up to its first colon, and what follows it without one leading space. */
  function Field(line: string): (string, string) {
    var k := IndexOf(line, ':');
    if k == |line| then (line, "")
    else
      var value := line[k + 1..];
      (line[..k], if value != "" && value[0] == ' ' then value[1..] else value)
  }

  /** The scanner strips one carriage return, the decoder a second. */
  function HearLine(r: Reader, raw: string): Reader {
    var line := DropCR(DropCR(raw));
    if !r.ok || |raw| >= MAX_LINE then r.(ok := false)
    else if line == "" then Flush(r)
    else if line[0] == ':' then r
    else
      var (field, value) := Field(line);
      HearField(r, field, value)
  }

  function HearLines(r: Reader, lines: seq<string>): Reader {
    if lines == [] then r else HearLine(HearLines(r, lines[..|lines| - 1]), lines[|lines| - 1])
  }

  function Read(input: string): Reader {
    var r := HearLines(START, Lines(input));
    if r.ok then Flush(r) else r
  }

  lemma {:induction false} FirstFailureStands(r: Reader, lines: seq<string>, k: nat)
    requires k <= |lines| && !HearLines(r, lines[..k]).ok
    ensures HearLines(r, lines).ok == false && HearLines(r, lines).emitted == HearLines(r, lines[..k]).emitted
  {
    if k < |lines| {
      assert lines[..|lines| - 1][..k] == lines[..k];
      FirstFailureStands(r, lines[..|lines| - 1], k);
    } else {
      assert lines[..k] == lines;
    }
  }

  /** The two fields that matter. */
  method TakeField(name: string, data: string, field: string, value: string, ghost emitted: seq<Event>)
    returns (ok: bool, nextName: string, nextData: string)
    ensures var t := HearField(Reader(true, name, data, emitted), field, value);
            ok == t.ok && t.emitted == emitted && (ok ==> t == Reader(true, nextName, nextData, emitted))
  {
    ok, nextName, nextData := true, name, data;
    if field == "event" {
      nextName := value;
    } else if field == "data" {
      var additional := |value| + if data == "" then 0 else 1;
      if |data| + additional > MAX_DATA { return false, name, data; }
      nextData := if data == "" then value else data + "\n" + value;
    }
  }

  method CutLine(line: string) returns (field: string, value: string)
    ensures (field, value) == Field(line)
  {
    var cut := IndexOf(line, ':');
    field, value := line, "";
    if cut < |line| {
      field, value := line[..cut], line[cut + 1..];
      if value != "" && value[0] == ' ' {
        value := value[1..];
      }
    }
  }

  method Decode(input: string) returns (ok: bool, events: seq<Event>)
    ensures ok == Read(input).ok && events == Read(input).emitted
  {
    hide HearField;
    var name, data, emitted := "", "", [];
    var lines := Lines(input);
    for k := 0 to |lines|
      invariant Reader(true, name, data, emitted) == HearLines(START, lines[..k])
    {
      hide HearLines, Field, Lines, DropCR;
      HearNext(START, lines, k);
      if |lines[k]| >= MAX_LINE {
        FirstFailureStands(START, lines, k + 1);
        return false, emitted;
      }
      var line := DropCR(DropCR(lines[k]));
      if line == "" {
        if name != "" || data != "" {
          emitted := emitted + [Event(name, data)];
          name, data := "", "";
        }
      } else if line[0] != ':' {
        var field, value := CutLine(line);
        var heard;
        heard, name, data := TakeField(name, data, field, value, emitted);
        if !heard {
          FirstFailureStands(START, lines, k + 1);
          return false, emitted;
        }
      }
    }
    assert lines[..|lines|] == lines;
    if name != "" || data != "" {
      emitted := emitted + [Event(name, data)];
    }
    return true, emitted;
  }

  lemma HearNext(r: Reader, lines: seq<string>, k: nat)
    requires k < |lines|
    ensures HearLines(r, lines[..k + 1]) == HearLine(HearLines(r, lines[..k]), lines[k])
  {
    assert lines[..k + 1][..k] == lines[..k];
  }

  // ---------------------------------------------------------------- writing

  function DataLines(lines: seq<string>): string {
    if lines == [] then "" else DataLines(lines[..|lines| - 1]) + ("data: " + lines[|lines| - 1] + "\n")
  }

  function Written(e: Event): string {
    (if e.name != "" then "event: " + e.name + "\n" else "") + DataLines(Split(e.data)) + "\n"
  }

  method Write(e: Event) returns (output: string)
    ensures output == Written(e)
  {
    output := "";
    if e.name != "" {
      output := "event: " + e.name + "\n";
    }
    ghost var head := output;
    var lines := Split(e.data);
    for k := 0 to |lines|
      invariant output == head + DataLines(lines[..k])
    {
      assert lines[..k + 1][..k] == lines[..k];
      output := output + ("data: " + lines[k] + "\n");
    }
    assert lines[..|lines|] == lines;
    output := output + "\n";
  }

  function WrittenAll(events: seq<Event>): string {
    if events == [] then "" else WrittenAll(events[..|events| - 1]) + Written(events[|events| - 1])
  }

  // ---------------------------------------------------------------- the round trip

  /** Leading newlines of data are lost: an empty first line leaves the buffer empty. */
  function Stripped(data: string): string {
    if data != "" && data[0] == '\n' then Stripped(data[1..]) else data
  }

  /** What comes back for one event; one that is empty altogether is dropped. */
  function Back(e: Event): seq<Event> {
    if e.name == "" && Stripped(e.data) == "" then [] else [Event(e.name, Stripped(e.data))]
  }

  function AllBack(events: seq<Event>): seq<Event> {
    if events == [] then [] else AllBack(events[..|events| - 1]) + Back(events[|events| - 1])
  }

  predicate EndsInCR(line: string) {
    line != "" && line[|line| - 1] == '\r'
  }

  /** Nothing in the event is taken for a line ending. */
  predicate Clean(e: Event) {
    '\n' !in e.name && !EndsInCR(e.name) && forall k :: 0 <= k < |Split(e.data)| ==> !EndsInCR(Split(e.data)[k])
  }

  /** Every line fits the scanner and the data fits the decoder. */
  predicate Fits(e: Event) {
    && |e.name| + 7 < 0x40_0000
    && (forall k :: 0 <= k < |Split(e.data)| ==> |Split(e.data)[k]| + 6 < 0x40_0000)
    && |Stripped(e.data)| <= 0x80_0000
  }

  lemma {:induction false} HearConcat(r: Reader, first: seq<string>, second: seq<string>)
    ensures HearLines(r, first + second) == HearLines(HearLines(r, first), second)
  {
    hide HearLine;
    if second == [] {
      assert first + second == first;
    } else {
      var init := second[..|second| - 1];
      assert (first + second)[..|first + second| - 1] == first + init;
      HearConcat(r, first, init);
    }
  }

  lemma FieldLine(field: string, value: string)
    requires ':' !in field && field != "" && !EndsInCR(value)
    ensures var line := field + ": " + value;
            && DropCR(DropCR(line)) == line && line[0] != ':'
            && IndexOf(line, ':') == |field| && line[..|field|] == field && line[|field| + 1..] == " " + value
  {
    var line := field + ": " + value;
    IndexOfFirst(field, ':', " " + value);
    assert line == field + ":" + (" " + value);
    assert line[|line| - 1] != '\r';
  }

  lemma HearEventLine(r: Reader, name: string)
    requires r.ok && !EndsInCR(name)
    ensures HearLine(r, "event: " + name) == if |name| + 7 < MAX_LINE then r.(name := name) else r.(ok := false)
  {
    hide IndexOf;
    FieldLine("event", name);
    assert "event" + ": " + name == "event: " + name;
    assert (" " + name)[1..] == name;
  }

  lemma HearDataLine(r: Reader, value: string)
    requires r.ok && !EndsInCR(value)
    ensures HearLine(r, "data: " + value) ==
            if |value| + 6 >= MAX_LINE || |Append(r.data, value)| > MAX_DATA then r.(ok := false)
            else r.(data := Append(r.data, value))
  {
    hide IndexOf;
    FieldLine("data", value);
    assert "data" + ": " + value == "data: " + value;
    assert (" " + value)[1..] == value;
  }

  function Prefixed(lines: seq<string>): (r: seq<string>)
    ensures |r| == |lines|
  {
    seq(|lines|, k requires 0 <= k < |lines| => "data: " + lines[k])
  }

  /** The buffer after the data lines. */
  function Gathered(data: string, lines: seq<string>): string {
    if lines == [] then data else Append(Gathered(data, lines[..|lines| - 1]), lines[|lines| - 1])
  }

  lemma HearPrefixed(r: Reader, lines: seq<string>)
    requires lines != []
    ensures HearLines(r, Prefixed(lines)) ==
            HearLine(HearLines(r, Prefixed(lines[..|lines| - 1])), "data: " + lines[|lines| - 1])
  {
    hide HearLine;
    assert Prefixed(lines)[..|lines| - 1] == Prefixed(lines[..|lines| - 1]);
  }

  lemma {:induction false} GatheredGrows(data: string, lines: seq<string>, k: nat)
    requires k <= |lines|
    ensures |Gathered(data, lines[..k])| <= |Gathered(data, lines)|
  {
    if k < |lines| {
      assert lines[..|lines| - 1][..k] == lines[..k];
      GatheredGrows(data, lines[..|lines| - 1], k);
    } else {
      assert lines[..k] == lines;
    }
  }

  lemma {:induction false} HearDataLines(r: Reader, lines: seq<string>)
    requires r.ok && |r.data| <= MAX_DATA && forall k :: 0 <= k < |lines| ==> !EndsInCR(lines[k])
    ensures var t := HearLines(r, Prefixed(lines));
            && t.name == r.name && t.emitted == r.emitted
            && (t.ok <==> (forall k :: 0 <= k < |lines| ==> |lines[k]| + 6 < MAX_LINE) && |Gathered(r.data, lines)| <= MAX_DATA)
            && (t.ok ==> t.data == Gathered(r.data, lines))
  {
    hide HearLine, HearLines;
    if lines == [] {
      HearNothing(r);
    } else {
      var init, last := lines[..|lines| - 1], lines[|lines| - 1];
      HearPrefixed(r, lines);
      HearDataLines(r, init);
      GatheredGrows(r.data, lines, |init|);
      var t := HearLines(r, Prefixed(init));
      if t.ok {
        HearDataLine(t, last);
      } else {
        StaysFailed(t, "data: " + last);
      }
    }
  }

  lemma HearNothing(r: Reader)
    ensures HearLines(r, Prefixed([])) == r
  {
  }

  lemma StaysFailed(r: Reader, line: string)
    requires !r.ok
    ensures HearLine(r, line) == r
  {
  }

  lemma {:induction false} GatheredConcat(data: string, first: seq<string>, second: seq<string>)
    ensures Gathered(data, first + second) == Gathered(Gathered(data, first), second)
  {
    if second == [] {
      assert first + second == first;
    } else {
      var init := second[..|second| - 1];
      assert (first + second)[..|first + second| - 1] == first + init;
      GatheredConcat(data, first, init);
    }
  }

  lemma GatheredOne(data: string, line: string)
    ensures Gathered(data, [line]) == Append(data, line)
  {}

  lemma Rejoined(data: string, rest: string, k: nat)
    requires k < |rest| && rest[k] == '\n'
    ensures data + "\n" + rest[..k] + "\n" + rest[k + 1..] == data + "\n" + rest
  {}

  lemma {:induction false} GatheredRest(data: string, rest: string)
    requires data != ""
    ensures Gathered(data, Split(rest)) == data + "\n" + rest
    decreases |rest|
  {
    hide Gathered, IndexOf;
    var k := IndexOf(rest, '\n');
    if k < |rest| {
      GatheredConcat(data, [rest[..k]], Split(rest[k + 1..]));
      GatheredOne(data, rest[..k]);
      GatheredRest(data + "\n" + rest[..k], rest[k + 1..]);
      Rejoined(data, rest, k);
    } else {
      GatheredOne(data, rest);
    }
  }

  /** Joining the lines again gives back the data without its leading newlines. */
  lemma {:induction false} GatheredIsStripped(data: string)
    ensures Gathered("", Split(data)) == Stripped(data)
    decreases |data|
  {
    hide Gathered;
    var k := IndexOf(data, '\n');
    if k < |data| {
      GatheredConcat("", [data[..k]], Split(data[k + 1..]));
      GatheredOne("", data[..k]);
      if k == 0 {
        GatheredIsStripped(data[1..]);
      } else {
        GatheredRest(data[..k], data[k + 1..]);
        assert data == data[..k] + "\n" + data[k + 1..];
        assert data[0] == data[..k][0];
      }
    } else {
      GatheredOne("", data);
    }
  }

  function EventLines(e: Event): seq<string> {
    (if e.name != "" then ["event: " + e.name] else []) + Prefixed(Split(e.data)) + [""]
  }

  lemma {:induction false} SplitHasNoNewline(data: string)
    ensures forall k :: 0 <= k < |Split(data)| ==> '\n' !in Split(data)[k]
    decreases |data|
  {
    var k := IndexOf(data, '\n');
    if k < |data| {
      SplitHasNoNewline(data[k + 1..]);
    }
  }

  lemma {:induction false} DataLinesAreLines(lines: seq<string>, rest: string)
    requires forall k :: 0 <= k < |lines| ==> '\n' !in lines[k]
    ensures Lines(DataLines(lines) + rest) == Prefixed(lines) + Lines(rest)
  {
    hide Lines;
    if lines == [] {
      assert DataLines(lines) + rest == rest;
    } else {
      var init, last := lines[..|lines| - 1], lines[|lines| - 1];
      DataLinesAreLines(init, "data: " + last + "\n" + rest);
      assert DataLines(lines) + rest == DataLines(init) + ("data: " + last + "\n" + rest);
      LinesStep("data: " + last, rest);
      assert Prefixed(lines) == Prefixed(init) + ["data: " + last];
    }
  }

  lemma WrittenLines(e: Event, rest: string)
    requires '\n' !in e.name
    ensures Lines(Written(e) + rest) == EventLines(e) + Lines(rest)
  {
    hide Lines, DataLines, Split;
    SplitHasNoNewline(e.data);
    var body := DataLines(Split(e.data));
    DataLinesAreLines(Split(e.data), "\n" + rest);
    LinesStep("", rest);
    assert "" + "\n" + rest == "\n" + rest;
    if e.name != "" {
      LinesStep("event: " + e.name, body + ("\n" + rest));
      assert Written(e) + rest == "event: " + e.name + "\n" + (body + ("\n" + rest));
    } else {
      assert Written(e) + rest == body + ("\n" + rest);
    }
  }

  /** One written event, read from a reader that holds nothing. */
  lemma EventHeard(r: Reader, e: Event)
    requires r.ok && r.name == "" && r.data == "" && Clean(e)
    ensures var t := HearLines(r, EventLines(e));
            && (t.ok <==> Fits(e))
            && (t.ok ==> t == r.(emitted := r.emitted + Back(e)))
  {
    hide HearLines, HearLine, Split, Stripped, Gathered;
    var head := if e.name != "" then ["event: " + e.name] else [];
    var body := Prefixed(Split(e.data));
    HearConcat(r, head + body, [""]);
    HearConcat(r, head, body);
    var named := HearLines(r, head);
    HeadHeard(r, e.name);
    if named.ok {
      HearDataLines(named, Split(e.data));
      GatheredIsStripped(e.data);
    } else {
      AllStayFailed(named, body);
    }
    BlankHeard(HearLines(named, body));
  }

  lemma HeadHeard(r: Reader, name: string)
    requires r.ok && r.name == "" && !EndsInCR(name)
    ensures var t := HearLines(r, if name != "" then ["event: " + name] else []);
            && (t.ok <==> |name| + 7 < MAX_LINE)
            && (t.ok ==> t == r.(name := name))
  {
    hide HearLine;
    if name != "" {
      HearEventLine(r, name);
      assert ["event: " + name][..0] == [];
    }
  }

  lemma {:induction false} AllStayFailed(r: Reader, lines: seq<string>)
    requires !r.ok
    ensures !HearLines(r, lines).ok
  {
    if lines != [] {
      AllStayFailed(r, lines[..|lines| - 1]);
    }
  }

  lemma BlankHeard(r: Reader)
    ensures HearLines(r, [""]) == if r.ok then Flush(r) else r
  {}

  lemma {:induction false} AllHeard(events: seq<Event>, rest: string)
    requires forall k :: 0 <= k < |events| ==> Clean(events[k])
    ensures var t := HearLines(START, Lines(WrittenAll(events) + rest));
            var fit := forall k :: 0 <= k < |events| ==> Fits(events[k]);
            && (!fit ==> !t.ok)
            && (fit ==> t == HearLines(START.(emitted := AllBack(events)), Lines(rest)))
  {
    hide Lines, HearLines, Written, Clean, Fits, Back;
    if events == [] {
      assert WrittenAll(events) + rest == rest;
    } else {
      var init, last := events[..|events| - 1], events[|events| - 1];
      assert WrittenAll(events) + rest == WrittenAll(init) + (Written(last) + rest);
      AllHeard(init, Written(last) + rest);
      CleanName(last);
      WrittenLines(last, rest);
      var r := START.(emitted := AllBack(init));
      HearConcat(r, EventLines(last), Lines(rest));
      EventHeard(r, last);
      if !Fits(last) {
        AllStayFailed(HearLines(r, EventLines(last)), Lines(rest));
      }
    }
  }

  lemma CleanName(e: Event)
    requires Clean(e)
    ensures '\n' !in e.name
  {
  }

  /** Reading what was written, for every list of events free of stray line endings: it succeeds exactly
      when every event fits, and then gives back the same events in order, leading newlines of data
      stripped and wholly empty events dropped. */
  lemma RoundTrip(events: seq<Event>)
    requires forall k :: 0 <= k < |events| ==> Clean(events[k])
    ensures Read(WrittenAll(events)).ok <==> forall k :: 0 <= k < |events| ==> Fits(events[k])
    ensures Read(WrittenAll(events)).ok ==> Read(WrittenAll(events)).emitted == AllBack(events)
  {
    hide Lines, HearLines, Clean, Fits, Back;
    assert WrittenAll(events) + "" == WrittenAll(events);
    AllHeard(events, "");
    EmptyRest(START.(emitted := AllBack(events)));
  }

  lemma EmptyRest(r: Reader)
    ensures HearLines(r, Lines("")) == r
  {
  }

  /** Its data does not start with a newline, and it is not empty altogether. */
  predicate Survives(e: Event) {
    (e.data == "" || e.data[0] != '\n') && e != Event("", "")
  }

  /** Events come back unchanged if and only if all of them survive. */
  lemma RoundTripExact(events: seq<Event>)
    requires forall k :: 0 <= k < |events| ==> Clean(events[k]) && Fits(events[k])
    ensures Read(WrittenAll(events)) == Reader(true, "", "", events) <==> forall k :: 0 <= k < |events| ==> Survives(events[k])
  {
    hide Read, WrittenAll, Clean, Fits, Survives;
    RoundTrip(events);
    BackExact(events);
    ReadEmpties(WrittenAll(events));
  }

  lemma ReadEmpties(input: string)
    requires Read(input).ok
    ensures Read(input).name == "" && Read(input).data == ""
  {
  }

  function Weight(events: seq<Event>): nat {
    if events == [] then 0 else Weight(events[..|events| - 1]) + |events[|events| - 1].data| + 1
  }

  lemma {:induction false} StrippedShorter(data: string)
    ensures |Stripped(data)| <= |data| && (Stripped(data) == data <==> data == "" || data[0] != '\n')
    ensures Stripped(data) != data ==> |Stripped(data)| < |data|
  {
    if data != "" && data[0] == '\n' {
      StrippedShorter(data[1..]);
    }
  }

  lemma WeightOneMore(events: seq<Event>, e: Event)
    ensures Weight(events + [e]) == Weight(events) + |e.data| + 1
  {
    assert (events + [e])[..|events|] == events;
  }

  lemma BackWeighs(before: seq<Event>, e: Event)
    ensures Survives(e) ==> Back(e) == [e]
    ensures Weight(before + Back(e)) <= Weight(before) + |e.data| + 1
    ensures !Survives(e) ==> Weight(before + Back(e)) < Weight(before) + |e.data| + 1
  {
    hide Stripped, Weight;
    StrippedShorter(e.data);
    WeightOneMore(before, Event(e.name, Stripped(e.data)));
    assert before + [] == before;
  }

  lemma BackOneMore(events: seq<Event>, e: Event)
    ensures AllBack(events + [e]) == AllBack(events) + Back(e)
  {
    assert (events + [e])[..|events|] == events;
  }

  /** Whatever does not survive makes what comes back lighter. */
  lemma {:induction false} BackWeight(events: seq<Event>)
    ensures (forall k :: 0 <= k < |events| ==> Survives(events[k])) ==> AllBack(events) == events
    ensures Weight(AllBack(events)) <= Weight(events)
    ensures (exists k :: 0 <= k < |events| && !Survives(events[k])) ==> Weight(AllBack(events)) < Weight(events)
  {
    hide Back, Survives, AllBack, Weight;
    if events == [] {
      NothingBack();
    } else {
      var init, last := events[..|events| - 1], events[|events| - 1];
      assert events == init + [last];
      BackWeight(init);
      BackWeighs(AllBack(init), last);
      BackOneMore(init, last);
      WeightOneMore(init, last);
      if k :| 0 <= k < |events| && !Survives(events[k]) && k < |init| {
        assert !Survives(init[k]);
      }
    }
  }

  lemma NothingBack()
    ensures AllBack([]) == []
  {
  }

  lemma BackExact(events: seq<Event>)
    ensures AllBack(events) == events <==> forall k :: 0 <= k < |events| ==> Survives(events[k])
  {
    hide Survives, AllBack, Weight;
    BackWeight(events);
  }

  // ---------------------------------------------------------------- streams written by others

  /** What section 9.2.6 makes of one line: nothing without a colon has a value, a colon in front is a comment,
      and one space behind the colon is not part of the value. */
  lemma ForeignLines(r: Reader, field: string, value: string)
    requires r.ok && field != "" && ':' !in field && !EndsInCR(field) && !EndsInCR(value)
    requires |field| + |value| + 2 < MAX_LINE
    ensures HearLine(r, field) == HearField(r, field, "")
    ensures HearLine(r, field + ":" + " " + value) == HearField(r, field, value)
    ensures value == "" || value[0] != ' ' ==> HearLine(r, field + ":" + value) == HearField(r, field, value)
    ensures HearLine(r, ":" + value) == r
    ensures HearField(r, field, value) ==
            if field == "event" then r.(name := value)
            else if field != "data" then r
            else
              var joined := if r.data == "" then value else r.data + "\n" + value;
              if |joined| <= 0x80_0000 then r.(data := joined) else r.(ok := false)
  {
    WithoutColon(field);
    AtColon(field, value);
    AtColon(field, " " + value);
    assert field + ":" + " " + value == field + ":" + (" " + value);
    assert (" " + value)[1..] == value;
    Untrimmed(field);
    Untrimmed(field + ":" + value);
    Untrimmed(field + ":" + (" " + value));
    Untrimmed(":" + value);
  }

  lemma WithoutColon(field: string)
    requires ':' !in field
    ensures Field(field) == (field, "")
  {
  }

  lemma AtColon(field: string, value: string)
    requires ':' !in field
    ensures Field(field + ":" + value) == (field, if value != "" && value[0] == ' ' then value[1..] else value)
  {
    IndexOfFirst(field, ':', value);
    var line := field + ":" + value;
    assert line[..|field|] == field && line[|field| + 1..] == value;
  }

  lemma Untrimmed(line: string)
    requires !EndsInCR(line)
    ensures DropCR(line) == line
  {
  }

  function WithCR(lines: seq<string>): seq<string> {
    if lines == [] then [] else WithCR(lines[..|lines| - 1]) + [lines[|lines| - 1] + "\r"]
  }

  /** Lines that end in a carriage return and a newline are heard like those that end in a newline alone. */
  lemma {:induction false} CRLFHeardAlike(r: Reader, lines: seq<string>)
    requires forall k :: 0 <= k < |lines| ==> !EndsInCR(lines[k]) && |lines[k]| + 1 < MAX_LINE
    ensures HearLines(r, WithCR(lines)) == HearLines(r, lines)
  {
    hide HearLine;
    if lines != [] {
      var init, last := lines[..|lines| - 1], lines[|lines| - 1];
      CRLFHeardAlike(r, init);
      OneCRLF(HearLines(r, init), last);
    }
  }

  lemma OneCRLF(r: Reader, line: string)
    requires !EndsInCR(line) && |line| + 1 < MAX_LINE
    ensures HearLine(r, line + "\r") == HearLine(r, line)
  {
    assert DropCR(line + "\r") == line && DropCR(line) == line;
  }
}
