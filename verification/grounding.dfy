/** Gemini grounding metadata turned into citations on text parts. */
module Grounding {
  import opened Llm
  import U = Utf8

  datatype Citation = Citation(start: nat, end: nat, url: string, title: string)

  /** A part of the answer; its text is given by the runes it encodes. */
  datatype Part =
    | TextPart(runes: seq<U.Rune>, citations: seq<Citation>)
    | SearchPart(queries: seq<string>)
    | OtherPart

  datatype Web = Web(uri: string, title: string)

  datatype Support = Support(chunks: seq<int>, part: int, start: int, end: int)

  /** `known` says that no other fields were present; a chunk without web data is `None`. */
  datatype Metadata = Metadata(known: bool, queries: seq<string>, chunks: seq<Option<Web>>, supports: seq<Support>)

  /** `Kept` means that the content stays as it was and the metadata is passed on instead. */
  datatype Outcome = Failed | Kept | Applied(content: seq<Part>)

  predicate Usable(g: Metadata, index: int) {
    0 <= index < |g.chunks| && g.chunks[index].Some? && g.chunks[index].value.uri != ""
  }

  /** The citations one support adds. */
  function Cite(g: Metadata, start: nat, end: nat, indexes: seq<int>): Option<seq<Citation>> {
    if indexes == [] then Some([])
    else
      match Cite(g, start, end, indexes[..|indexes| - 1])
      case None => None
      case Some(before) =>
        var index := indexes[|indexes| - 1];
        if !Usable(g, index) then None
        else Some(before + [Citation(start, end, g.chunks[index].value.uri, g.chunks[index].value.title)])
  }

  function ApplyOne(g: Metadata, out: seq<Part>, s: Support): Outcome {
    if s.part < 0 || s.part >= |out| || !out[s.part].TextPart? then Failed
    else
      var text := U.Text(out[s.part].runes);
      var start, end := U.RuneIndex(text, s.start), U.RuneIndex(text, s.end);
      if !start.Found? || !end.Found? then Failed
      else
        match Cite(g, start.index, end.index, s.chunks)
        case None => Kept
        case Some(citations) =>
          Applied(out[s.part := out[s.part].(citations := out[s.part].citations + citations)])
  }

  function ApplyAll(g: Metadata, content: seq<Part>, supports: seq<Support>): Outcome {
    if supports == [] then Applied(content)
    else
      match ApplyAll(g, content, supports[..|supports| - 1])
      case Applied(out) => ApplyOne(g, out, supports[|supports| - 1])
      case other => other
  }

  function Ground(g: Metadata, content: seq<Part>): Outcome {
    if !g.known then Kept
    else
      match ApplyAll(g, content, g.supports)
      case Applied(out) => Applied(if g.queries != [] then [SearchPart(g.queries)] + out else out)
      case other => other
  }

  lemma {:induction false} FirstStopStands(g: Metadata, content: seq<Part>, supports: seq<Support>, k: nat)
    requires k <= |supports| && !ApplyAll(g, content, supports[..k]).Applied?
    ensures ApplyAll(g, content, supports) == ApplyAll(g, content, supports[..k])
  {
    hide ApplyOne;
    if k < |supports| {
      assert supports[..|supports| - 1][..k] == supports[..k];
      FirstStopStands(g, content, supports[..|supports| - 1], k);
    } else {
      assert supports[..k] == supports;
    }
  }

  lemma {:induction false} UnusableStands(g: Metadata, start: nat, end: nat, indexes: seq<int>, k: nat)
    requires k < |indexes| && !Usable(g, indexes[k])
    ensures Cite(g, start, end, indexes).None?
  {
    if k < |indexes| - 1 {
      UnusableStands(g, start, end, indexes[..|indexes| - 1], k);
    }
  }

  /** The loops over supports and their chunks, on a copy of the content. */
  method ApplyGrounding(g: Metadata, content: seq<Part>) returns (outcome: Outcome)
    ensures outcome == Ground(g, content)
  {
    if !g.known { return Kept; }
    var out := content;
    for k := 0 to |g.supports|
      invariant ApplyAll(g, content, g.supports[..k]) == Applied(out)
    {
      assert g.supports[..k + 1][..k] == g.supports[..k];
      var one := ApplySupport(g, out, g.supports[k]);
      if !one.Applied? {
        FirstStopStands(g, content, g.supports, k + 1);
        return one;
      }
      out := one.content;
    }
    assert g.supports[..|g.supports|] == g.supports;
    if g.queries != [] {
      out := [SearchPart(g.queries)] + out;
    }
    return Applied(out);
  }

  method ApplySupport(g: Metadata, out: seq<Part>, s: Support) returns (outcome: Outcome)
    ensures outcome == ApplyOne(g, out, s)
  {
    hide U.RuneIndex, U.Text;
    if s.part < 0 || s.part >= |out| { return Failed; }
    if !out[s.part].TextPart? { return Failed; }
    var text := U.Text(out[s.part].runes);
    var start, end := U.RuneIndex(text, s.start), U.RuneIndex(text, s.end);
    if !start.Found? || !end.Found? { return Failed; }
    var citations: seq<Citation> := [];
    for k := 0 to |s.chunks|
      invariant Cite(g, start.index, end.index, s.chunks[..k]) == Some(citations)
    {
      assert s.chunks[..k + 1][..k] == s.chunks[..k];
      if !Usable(g, s.chunks[k]) {
        UnusableStands(g, start.index, end.index, s.chunks, k);
        return Kept;
      }
      var web := g.chunks[s.chunks[k]].value;
      citations := citations + [Citation(start.index, end.index, web.uri, web.title)];
    }
    assert s.chunks[..|s.chunks|] == s.chunks;
    return Applied(out[s.part := out[s.part].(citations := out[s.part].citations + citations)]);
  }

  // ---------------------------------------------------------------- what the result says

  /** A support of a text part, between two of its runes. */
  ghost predicate Placed(content: seq<Part>, s: Support) {
    && 0 <= s.part < |content| && content[s.part].TextPart?
    && U.Boundary(content[s.part].runes, s.start) && U.Boundary(content[s.part].runes, s.end)
  }

  /** It names chunks that are there and lead somewhere. */
  ghost predicate Citing(g: Metadata, s: Support) {
    forall k :: 0 <= k < |s.chunks| ==>
      0 <= s.chunks[k] < |g.chunks| && g.chunks[s.chunks[k]].Some? && g.chunks[s.chunks[k]].value.uri != ""
  }

  ghost predicate Sound(g: Metadata, content: seq<Part>, s: Support) {
    Placed(content, s) && Citing(g, s)
  }

  /** Same parts and same texts; only citations were added, at the end. */
  ghost predicate Extends(content: seq<Part>, out: seq<Part>) {
    && |out| == |content|
    && forall i :: 0 <= i < |content| ==>
         if content[i].TextPart? then
           && out[i].TextPart? && out[i].runes == content[i].runes && content[i].citations <= out[i].citations
         else out[i] == content[i]
  }

  /** What the validator asks of a citation. */
  predicate Valid(runes: seq<U.Rune>, c: Citation) {
    c.start <= c.end <= |runes| && c.url != ""
  }

  ghost predicate AllValid(content: seq<Part>) {
    forall i :: 0 <= i < |content| && content[i].TextPart? ==> AllCitationsValid(content[i])
  }

  ghost predicate AllCitationsValid(p: Part)
    requires p.TextPart?
  {
    forall k :: 0 <= k < |p.citations| ==> Valid(p.runes, p.citations[k])
  }

  lemma {:induction false} CiteExactly(g: Metadata, start: nat, end: nat, indexes: seq<int>)
    ensures Cite(g, start, end, indexes).Some? <==> forall k :: 0 <= k < |indexes| ==> Usable(g, indexes[k])
    ensures Cite(g, start, end, indexes).Some? ==>
              var added := Cite(g, start, end, indexes).value;
              && |added| == |indexes|
              && forall k :: 0 <= k < |indexes| ==>
                   Usable(g, indexes[k])
                   && added[k] == Citation(start, end, g.chunks[indexes[k]].value.uri, g.chunks[indexes[k]].value.title)
  {
    if indexes != [] {
      CiteExactly(g, start, end, indexes[..|indexes| - 1]);
    }
  }

  lemma CitingUsable(g: Metadata, s: Support)
    ensures Citing(g, s) <==> forall k :: 0 <= k < |s.chunks| ==> Usable(g, s.chunks[k])
  {}

  lemma OneApplied(g: Metadata, content: seq<Part>, out: seq<Part>, s: Support)
    requires Extends(content, out)
    ensures ApplyOne(g, out, s).Applied? <==> Sound(g, content, s)
    ensures ApplyOne(g, out, s).Failed? <==> !Placed(content, s)
    ensures ApplyOne(g, out, s).Applied? ==> Extends(content, ApplyOne(g, out, s).content)
  {
    hide U.RuneIndex, U.Text, U.Boundary, Usable, Citing;
    CitingUsable(g, s);
    if 0 <= s.part < |out| && out[s.part].TextPart? {
      var runes := out[s.part].runes;
      U.RuneIndexIsBoundary(runes, s.start);
      U.RuneIndexIsBoundary(runes, s.end);
      var start, end := U.RuneIndex(U.Text(runes), s.start), U.RuneIndex(U.Text(runes), s.end);
      if start.Found? && end.Found? {
        CiteExactly(g, start.index, end.index, s.chunks);
      }
    }
  }

  lemma {:induction false} AllApplied(g: Metadata, content: seq<Part>, supports: seq<Support>)
    ensures ApplyAll(g, content, supports).Applied? <==> forall k :: 0 <= k < |supports| ==> Sound(g, content, supports[k])
    ensures ApplyAll(g, content, supports).Applied? ==> Extends(content, ApplyAll(g, content, supports).content)
  {
    hide ApplyOne, Sound;
    if supports != [] {
      var before := supports[..|supports| - 1];
      AllApplied(g, content, before);
      if ApplyAll(g, content, before).Applied? {
        OneApplied(g, content, ApplyAll(g, content, before).content, supports[|supports| - 1]);
      } else {
        var k :| 0 <= k < |before| && !Sound(g, content, before[k]);
        assert supports[k] == before[k];
      }
    }
  }

  /** Grounding is all or nothing: it is applied exactly when every support is sound, and then it leaves
      every text alone and only adds citations, after a search part if there were queries. */
  lemma GroundingIsAllOrNothing(g: Metadata, content: seq<Part>)
    ensures Ground(g, content).Applied? <==>
            g.known && forall k :: 0 <= k < |g.supports| ==> Sound(g, content, g.supports[k])
    ensures Ground(g, content).Applied? ==>
              var out := Ground(g, content).content;
              if g.queries != [] then
                |out| > 0 && out[0] == SearchPart(g.queries) && Extends(content, out[1..])
              else Extends(content, out)
  {
    hide ApplyAll, Sound;
    AllApplied(g, content, g.supports);
  }

  /** The first support that is not sound decides: misplaced, it fails the whole answer; otherwise the metadata is
      passed on. */
  lemma {:induction false} FirstUnsoundDecides(g: Metadata, content: seq<Part>, supports: seq<Support>, k: nat)
    requires k < |supports| && !Sound(g, content, supports[k])
    requires forall j :: 0 <= j < k ==> Sound(g, content, supports[j])
    ensures ApplyAll(g, content, supports).Failed? <==> !Placed(content, supports[k])
    ensures ApplyAll(g, content, supports).Kept? <==> Placed(content, supports[k])
  {
    hide ApplyOne, Sound, Placed;
    var before := supports[..k];
    AllApplied(g, content, before);
    OneApplied(g, content, ApplyAll(g, content, before).content, supports[k]);
    assert supports[..k + 1][..k] == before;
    FirstStopStands(g, content, supports, k + 1);
  }

  /** What a support adds to a text: for each chunk the runes between its ends, and where the chunk leads. */
  ghost predicate Cites(g: Metadata, runes: seq<U.Rune>, s: Support, added: seq<Citation>) {
    && |added| == |s.chunks|
    && forall k :: 0 <= k < |added| ==>
         var c := added[k];
         && c.start <= |runes| && U.Start(runes, c.start) == s.start
         && c.end <= |runes| && U.Start(runes, c.end) == s.end
         && 0 <= s.chunks[k] < |g.chunks| && g.chunks[s.chunks[k]] == Some(Web(c.url, c.title))
  }

  /** What the supports of the part at an index add to it, one after the other. */
  ghost predicate Gathers(g: Metadata, runes: seq<U.Rune>, index: int, supports: seq<Support>, added: seq<Citation>) {
    if supports == [] then added == []
    else
      var init, last := supports[..|supports| - 1], supports[|supports| - 1];
      if last.part != index then Gathers(g, runes, index, init, added)
      else
        var n := |added| - |last.chunks|;
        n >= 0 && Gathers(g, runes, index, init, added[..n]) && Cites(g, runes, last, added[n..])
  }

  lemma OneCites(g: Metadata, content: seq<Part>, out: seq<Part>, s: Support) returns (added: seq<Citation>)
    requires Extends(content, out) && ApplyOne(g, out, s).Applied?
    ensures 0 <= s.part < |content| && content[s.part].TextPart? && |added| == |s.chunks|
    ensures Cites(g, content[s.part].runes, s, added)
    ensures ApplyOne(g, out, s).content == out[s.part := out[s.part].(citations := out[s.part].citations + added)]
  {
    hide U.RuneIndex, U.Text, U.Boundary;
    var runes := out[s.part].runes;
    U.RuneIndexIsBoundary(runes, s.start);
    U.RuneIndexIsBoundary(runes, s.end);
    var start, end := U.RuneIndex(U.Text(runes), s.start), U.RuneIndex(U.Text(runes), s.end);
    CiteExactly(g, start.index, end.index, s.chunks);
    added := Cite(g, start.index, end.index, s.chunks).value;
  }

  /** A text ends up with its citations and, behind them, exactly what its supports add, in their order. */
  lemma {:induction false} GroundingAdds(g: Metadata, content: seq<Part>, supports: seq<Support>, i: nat)
    requires ApplyAll(g, content, supports).Applied? && i < |content| && content[i].TextPart?
    ensures var out := ApplyAll(g, content, supports).content;
            && |out| == |content| && out[i].TextPart? && content[i].citations <= out[i].citations
            && Gathers(g, content[i].runes, i, supports, out[i].citations[|content[i].citations|..])
  {
    hide ApplyOne, Cites;
    if supports != [] {
      var init, last, own := supports[..|supports| - 1], supports[|supports| - 1], content[i].citations;
      GroundingAdds(g, content, init, i);
      AllApplied(g, content, init);
      var before := ApplyAll(g, content, init).content;
      OneApplied(g, content, before, last);
      var added := OneCites(g, content, before, last);
      if last.part == i {
        var now := before[i].citations + added;
        assert now[|own|..][..|before[i].citations| - |own|] == before[i].citations[|own|..];
        assert now[|own|..][|before[i].citations| - |own|..] == added;
        assert |now[|own|..]| - |last.chunks| == |before[i].citations| - |own|;
      }
    }
  }

  /** A support that cites with its ends the right way round. */
  predicate Forward(s: Support) {
    s.chunks != [] ==> s.start <= s.end
  }

  lemma OneValid(g: Metadata, content: seq<Part>, out: seq<Part>, s: Support)
    requires Extends(content, out) && ApplyOne(g, out, s).Applied?
    ensures AllValid(ApplyOne(g, out, s).content) <==> AllValid(out) && Forward(s)
  {
    hide U.RuneIndex, U.Text, U.Boundary, Extends;
    var part := out[s.part];
    var start, end := U.RuneIndex(U.Text(part.runes), s.start), U.RuneIndex(U.Text(part.runes), s.end);
    U.RuneIndexMonotone(part.runes, s.start, s.end);
    U.CountOfText(part.runes);
    CiteExactly(g, start.index, end.index, s.chunks);
    var added := Cite(g, start.index, end.index, s.chunks).value;
    var next := part.(citations := part.citations + added);
    assert ApplyOne(g, out, s).content == out[s.part := next];
    PartValid(part, added);
    if s.chunks != [] {
      assert Valid(part.runes, added[0]) ==> s.start <= s.end;
    }
    if Forward(s) {
      forall k | 0 <= k < |added| ensures Valid(part.runes, added[k]) {
      }
    }
    OthersValid(out, s.part, next);
  }

  lemma PartValid(p: Part, added: seq<Citation>)
    requires p.TextPart?
    ensures AllCitationsValid(p.(citations := p.citations + added)) <==>
            AllCitationsValid(p) && forall k :: 0 <= k < |added| ==> Valid(p.runes, added[k])
  {
    var q := p.(citations := p.citations + added);
    if AllCitationsValid(q) {
      forall k | 0 <= k < |added| ensures Valid(p.runes, added[k]) {
        assert q.citations[|p.citations| + k] == added[k];
      }
      forall k | 0 <= k < |p.citations| ensures Valid(p.runes, p.citations[k]) {
        assert q.citations[k] == p.citations[k];
      }
    }
  }

  lemma OthersValid(out: seq<Part>, i: nat, next: Part)
    requires i < |out| && out[i].TextPart? && next.TextPart?
    requires AllCitationsValid(next) ==> AllCitationsValid(out[i])
    ensures AllValid(out[i := next]) <==> AllValid(out) && AllCitationsValid(next)
  {
    var after := out[i := next];
    if AllValid(after) {
      assert AllCitationsValid(after[i]);
      forall j | 0 <= j < |out| && out[j].TextPart? ensures AllCitationsValid(out[j]) {
        if j != i {
          assert after[j] == out[j];
        }
      }
    }
  }

  lemma {:induction false} SupportsValid(g: Metadata, content: seq<Part>, supports: seq<Support>)
    requires ApplyAll(g, content, supports).Applied?
    ensures AllValid(ApplyAll(g, content, supports).content) <==>
            AllValid(content) && forall k :: 0 <= k < |supports| ==> Forward(supports[k])
  {
    hide ApplyOne, AllValid, Forward;
    if supports != [] {
      var before := supports[..|supports| - 1];
      SupportsValid(g, content, before);
      AllApplied(g, content, before);
      OneValid(g, content, ApplyAll(g, content, before).content, supports[|supports| - 1]);
    }
  }

  /** The citations added satisfy the validator exactly when no citing support runs backwards. */
  lemma GroundingIsValid(g: Metadata, content: seq<Part>)
    requires Ground(g, content).Applied? && AllValid(content)
    ensures AllValid(Ground(g, content).content) <==> forall k :: 0 <= k < |g.supports| ==> Forward(g.supports[k])
  {
    hide ApplyAll, Forward;
    SupportsValid(g, content, g.supports);
    var out := ApplyAll(g, content, g.supports).content;
    if g.queries != [] {
      var all := [SearchPart(g.queries)] + out;
      forall i | 0 <= i < |out| ensures all[i + 1] == out[i] {
      }
      assert AllValid(all) <==> AllValid(out);
    }
  }
}
