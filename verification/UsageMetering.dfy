/**
 Usage metering at the response boundary (cpx/usage-middleware.ts): normalizing one usage
 object of any of the three wire shapes, merging the usages of a stream, and reading them
 out of the stream's text.
 */
module UsageMetering {
  import opened Common
  import opened SseLines

  // ----- parsed JSON objects, as far as the meter looks at them -----

  datatype Details = Details(cachedTokens: Option<int>, cacheCreationTokens: Option<int>, reasoningTokens: Option<int>)

  datatype RawUsage = RawUsage(
    promptTokens: Option<int>, inputTokens: Option<int>,
    completionTokens: Option<int>, outputTokens: Option<int>, totalTokens: Option<int>,
    cacheReadInputTokens: Option<int>, cacheCreationInputTokens: Option<int>, nanoAiu: Option<int>,
    promptDetails: Details, inputDetails: Details, completionDetails: Details, outputDetails: Details)

  /** `message` or `response` inside an event. */
  datatype Inner = Inner(model: Option<string>, usage: Option<RawUsage>)

  datatype UsageObject = UsageObject(model: Option<string>, usage: Option<RawUsage>, message: Inner, response: Inner,
                                     copilotNanoAiu: Option<int>)

  const NoDetails := Details(None, None, None)
  const NoInner := Inner(None, None)
  const BareUsage := RawUsage(None, None, None, None, None, None, None, None, NoDetails, NoDetails, NoDetails, NoDetails)

  // ----- normalizing -----

  datatype Counts = Counts(promptTokens: Option<int>, completionTokens: Option<int>, cachedTokens: Option<int>,
                           cacheWriteTokens: Option<int>, reasoningTokens: Option<int>, totalTokens: Option<int>,
                           costNanoAiu: Option<int>)

  datatype NormalizedUsage = NormalizedUsage(model: Option<string>, counts: Counts)

  const NoCounts := Counts(None, None, None, None, None, None, None)
  const NoUsage := NormalizedUsage(None, NoCounts)

  /** `a ?? b`. */
  function OrElse<T>(a: Option<T>, b: Option<T>): Option<T> { if a.Some? then a else b }

  function PromptOf(u: RawUsage): Option<int> {
    var prompt := OrElse(u.promptTokens, u.inputTokens);
    var openAiCached := OrElse(u.promptDetails.cachedTokens, u.inputDetails.cachedTokens);
    if prompt.Some? && openAiCached.None? && u.cacheReadInputTokens.Some?
    then Some(prompt.value + u.cacheReadInputTokens.value) else prompt
  }

  function CountsOf(u: RawUsage, copilotNanoAiu: Option<int>): Counts {
    var prompt := PromptOf(u);
    var completion := OrElse(u.completionTokens, u.outputTokens);
    Counts(prompt, completion,
           OrElse(OrElse(u.promptDetails.cachedTokens, u.inputDetails.cachedTokens), u.cacheReadInputTokens),
           OrElse(u.cacheCreationInputTokens, u.inputDetails.cacheCreationTokens),
           OrElse(u.completionDetails.reasoningTokens, u.outputDetails.reasoningTokens),
           if u.totalTokens.Some? then u.totalTokens
           else if prompt.None? && completion.None? then None
           else Some(prompt.GetOr(0) + completion.GetOr(0)),
           OrElse(copilotNanoAiu, u.nanoAiu))
  }

  function NormalizeUsage(o: UsageObject): Option<NormalizedUsage> {
    var usage := OrElse(OrElse(o.usage, o.message.usage), o.response.usage);
    var model := OrElse(OrElse(o.model, o.response.model), o.message.model);
    match usage
    case Some(u) => Some(NormalizedUsage(model, CountsOf(u, o.copilotNanoAiu)))
    case None => if model.Some? && model.value != "" then Some(NormalizedUsage(model, NoCounts)) else None
  }

  // ----- merging -----

  function MaxDefined(x: Option<int>, y: Option<int>): Option<int> {
    if x.None? then y else if y.None? then x else if x.value >= y.value then x else y
  }

  function MergeCounts(a: Counts, b: Counts): Counts {
    Counts(MaxDefined(a.promptTokens, b.promptTokens), MaxDefined(a.completionTokens, b.completionTokens),
           MaxDefined(a.cachedTokens, b.cachedTokens), MaxDefined(a.cacheWriteTokens, b.cacheWriteTokens),
           MaxDefined(a.reasoningTokens, b.reasoningTokens), MaxDefined(a.totalTokens, b.totalTokens),
           MaxDefined(a.costNanoAiu, b.costNanoAiu))
  }

  function MergeUsage(a: NormalizedUsage, b: NormalizedUsage): NormalizedUsage {
    NormalizedUsage(OrElse(a.model, b.model), MergeCounts(a.counts, b.counts))
  }

  function MergeAll(u: NormalizedUsage, partials: seq<NormalizedUsage>): NormalizedUsage
    decreases |partials|
  {
    if partials == [] then u else MergeAll(MergeUsage(u, partials[0]), partials[1..])
  }

  /** Merging counts is commutative, associative and idempotent, with nothing as its unit. */
  lemma MergeCountsLaws(a: Counts, b: Counts, c: Counts)
    ensures MergeCounts(a, b) == MergeCounts(b, a)
    ensures MergeCounts(MergeCounts(a, b), c) == MergeCounts(a, MergeCounts(b, c))
    ensures MergeCounts(a, a) == a
    ensures MergeCounts(NoCounts, a) == a == MergeCounts(a, NoCounts)
  {
  }

  function TotalCounts(partials: seq<NormalizedUsage>): Counts {
    if partials == [] then NoCounts else MergeCounts(partials[0].counts, TotalCounts(partials[1..]))
  }

  lemma {:induction false} MergeAllCounts(u: NormalizedUsage, partials: seq<NormalizedUsage>)
    ensures MergeAll(u, partials).counts == MergeCounts(u.counts, TotalCounts(partials))
    decreases |partials|
  {
    if partials == [] {
      MergeCountsLaws(u.counts, NoCounts, NoCounts);
    } else {
      MergeAllCounts(MergeUsage(u, partials[0]), partials[1..]);
      MergeCountsLaws(u.counts, partials[0].counts, TotalCounts(partials[1..]));
    }
  }

  lemma {:induction false} TotalCountsConcat(a: seq<NormalizedUsage>, b: seq<NormalizedUsage>)
    ensures TotalCounts(a + b) == MergeCounts(TotalCounts(a), TotalCounts(b))
  {
    if a == [] {
      assert a + b == b;
      MergeCountsLaws(TotalCounts(b), NoCounts, NoCounts);
    } else {
      TotalCountsConcat(a[1..], b);
      assert (a + b)[0] == a[0] && (a + b)[1..] == a[1..] + b;
      MergeCountsLaws(a[0].counts, TotalCounts(a[1..]), TotalCounts(b));
    }
  }

  lemma TotalCountsOfOne(p: NormalizedUsage)
    ensures TotalCounts([p]) == p.counts
  {
    assert [p][1..] == [];
    MergeCountsLaws(p.counts, NoCounts, NoCounts);
  }

  /** Taking any partial out first gives the same total. */
  lemma TotalCountsPick(partials: seq<NormalizedUsage>, i: nat)
    requires i < |partials|
    ensures TotalCounts(partials) == MergeCounts(partials[i].counts, TotalCounts(partials[..i] + partials[i + 1..]))
  {
    var a, x, b := partials[..i], partials[i], partials[i + 1..];
    assert partials == a + ([x] + b);
    TotalCountsConcat(a, [x] + b);
    TotalCountsConcat([x], b);
    TotalCountsOfOne(x);
    TotalCountsConcat(a, b);
    MergeCountsLaws(TotalCounts(a), x.counts, TotalCounts(b));
    MergeCountsLaws(x.counts, TotalCounts(a), TotalCounts(b));
  }

  /** The merged counts do not depend on the order of the partial usages. */
  lemma {:induction false} MergeOrderIndependent(u: NormalizedUsage, a: seq<NormalizedUsage>, b: seq<NormalizedUsage>)
    requires multiset(a) == multiset(b)
    ensures MergeAll(u, a).counts == MergeAll(u, b).counts
  {
    TotalOrderIndependent(a, b);
    MergeAllCounts(u, a);
    MergeAllCounts(u, b);
  }

  lemma {:induction false} TotalOrderIndependent(a: seq<NormalizedUsage>, b: seq<NormalizedUsage>)
    requires multiset(a) == multiset(b)
    ensures TotalCounts(a) == TotalCounts(b)
    decreases |a|
  {
    if a == [] {
      assert |multiset(b)| == 0;
    } else {
      assert a[0] in multiset(a);
      var i :| 0 <= i < |b| && b[i] == a[0];
      TotalCountsPick(b, i);
      assert a == [a[0]] + a[1..];
      assert b == b[..i] + [b[i]] + b[i + 1..];
      assert multiset(a[1..]) == multiset(a) - multiset{a[0]};
      assert multiset(b[..i] + b[i + 1..]) == multiset(b) - multiset{b[i]};
      TotalOrderIndependent(a[1..], b[..i] + b[i + 1..]);
    }
  }

  /** Cached tokens are a part of the prompt tokens. */
  predicate CachedWithinPrompt(c: Counts) {
    c.cachedTokens.Some? ==> c.promptTokens.Some? && c.cachedTokens.value <= c.promptTokens.value
  }

  /** Merging keeps cached within prompt when every partial that reports cached also reports its prompt. */
  lemma {:induction false} MergeKeepsCachedWithinPrompt(u: NormalizedUsage, partials: seq<NormalizedUsage>)
    requires CachedWithinPrompt(u.counts) && forall p <- partials :: CachedWithinPrompt(p.counts)
    ensures CachedWithinPrompt(MergeAll(u, partials).counts)
    decreases |partials|
  {
    if partials != [] {
      assert partials[0] in partials;
      MergeKeepsCachedWithinPrompt(MergeUsage(u, partials[0]), partials[1..]);
    }
  }

  // ----- reading a stream -----

  predicate IsSpace(c: char) {
    c == ' ' || '\t' <= c <= '\r' || c == '\U{00A0}' || c == '\U{1680}' || '\U{2000}' <= c <= '\U{200A}'
    || c == '\U{2028}' || c == '\U{2029}' || c == '\U{202F}' || c == '\U{205F}' || c == '\U{3000}' || c == '\U{FEFF}'
  }

  function TrimStart(s: string): string {
    if s != "" && IsSpace(s[0]) then TrimStart(s[1..]) else s
  }

  function TrimEnd(s: string): string {
    if s != "" && IsSpace(s[|s| - 1]) then TrimEnd(s[..|s| - 1]) else s
  }

  function Trim(s: string): string { TrimEnd(TrimStart(s)) }

  /** `JSON.parse` of a data line; None when it fails or gives no object. */
  type Parser = string -> Option<UsageObject>

  /** What one line reports, if anything. */
  function PartialOf(parse: Parser, raw: string): Option<NormalizedUsage> {
    var line := Trim(raw);
    if !("data:" <= line) then None
    else
      var data := Trim(line[5..]);
      if data == "" || data == "[DONE]" then None
      else
        match parse(data)
        case None => None
        case Some(o) => NormalizeUsage(o)
  }

  function MeterLine(parse: Parser, usage: NormalizedUsage, raw: string): NormalizedUsage {
    match PartialOf(parse, raw)
    case None => usage
    case Some(partial) => MergeUsage(usage, partial)
  }

  function MeterLines(parse: Parser, usage: NormalizedUsage, lines: seq<string>): NormalizedUsage
    decreases |lines|
  {
    if lines == [] then usage else MeterLines(parse, MeterLine(parse, usage, lines[0]), lines[1..])
  }

  lemma {:induction false} MeterLinesConcat(parse: Parser, usage: NormalizedUsage, a: seq<string>, b: seq<string>)
    ensures MeterLines(parse, usage, a + b) == MeterLines(parse, MeterLines(parse, usage, a), b)
    decreases |a|
  {
    if a == [] {
      assert a + b == b;
    } else {
      MeterLinesConcat(parse, MeterLine(parse, usage, a[0]), a[1..], b);
      assert (a + b)[0] == a[0] && (a + b)[1..] == a[1..] + b;
    }
  }

  /** The inner loop: take the complete lines off the buffer. */
  method DrainBuffer(parse: Parser, usage0: NormalizedUsage, buffer0: string)
    returns (usage: NormalizedUsage, buffer: string)
    ensures usage == MergeAll(usage0, Partials(parse, Lines(buffer0))) && buffer == Rest(buffer0)
  {
    usage, buffer := usage0, buffer0;
    var nl := FirstNewline(buffer);
    while nl < |buffer|
      invariant nl == FirstNewline(buffer)
      invariant MeterLines(parse, usage, Lines(buffer)) == MeterLines(parse, usage0, Lines(buffer0))
      invariant Rest(buffer) == Rest(buffer0)
      decreases |buffer|
    {
      var line := buffer[..nl];
      ghost var tail := Lines(buffer[nl + 1..]);
      assert ([line] + tail)[0] == line && ([line] + tail)[1..] == tail;
      usage := MeterLine(parse, usage, line);
      buffer := buffer[nl + 1..];
      nl := FirstNewline(buffer);
    }
    MeterLinesMerges(parse, usage0, Lines(buffer0));
  }

  /**
   The metering loop over the pieces a body is read in. Its result is that of the
   newline-terminated lines of the whole text, so it depends only on the text.
   */
  method MeterStream(parse: Parser, pieces: seq<string>) returns (usage: NormalizedUsage)
    ensures usage == MergeAll(NoUsage, Partials(parse, Lines(Concat(pieces))))
  {
    var buffer := "";
    usage := NoUsage;
    for k := 0 to |pieces|
      invariant buffer == Rest(Concat(pieces[..k]))
      invariant usage == MeterLines(parse, NoUsage, Lines(Concat(pieces[..k])))
    {
      ghost var before := Concat(pieces[..k]);
      assert pieces[..k + 1] == pieces[..k] + [pieces[k]];
      ConcatSnoc(pieces[..k], pieces[k]);
      LinesConcat(before, pieces[k]);
      MeterLinesConcat(parse, NoUsage, Lines(before), Lines(buffer + pieces[k]));
      MeterLinesMerges(parse, usage, Lines(buffer + pieces[k]));
      usage, buffer := DrainBuffer(parse, usage, buffer + pieces[k]);
    }
    assert pieces[..|pieces|] == pieces;
    MeterLinesMerges(parse, NoUsage, Lines(Concat(pieces)));
  }

  // ----- what a metered stream comes to -----

  /** White space at neither end. */
  predicate Tight(s: string) {
    s != "" ==> !IsSpace(s[0]) && !IsSpace(s[|s| - 1])
  }

  predicate Blank(s: string) {
    forall c <- s :: IsSpace(c)
  }

  lemma {:induction false} TrimStartIs(blank: string, s: string)
    requires Blank(blank) && (s != "" ==> !IsSpace(s[0]))
    ensures TrimStart(blank + s) == s
  {
    if blank == "" {
      assert blank + s == s;
    } else {
      assert blank[0] in blank && (blank + s)[1..] == blank[1..] + s;
      TrimStartIs(blank[1..], s);
    }
  }

  lemma {:induction false} TrimEndIs(s: string, blank: string)
    requires Blank(blank) && (s != "" ==> !IsSpace(s[|s| - 1]))
    ensures TrimEnd(s + blank) == s
    decreases |blank|
  {
    if blank == "" {
      assert s + blank == s;
    } else {
      var n := |blank| - 1;
      assert blank[n] in blank && (s + blank)[..|s + blank| - 1] == s + blank[..n];
      TrimEndIs(s, blank[..n]);
    }
  }

  lemma {:induction false} BlankTrims(blank: string)
    requires Blank(blank)
    ensures TrimStart(blank) == ""
  {
    if blank != "" {
      assert blank[0] in blank;
      BlankTrims(blank[1..]);
    }
  }

  /** Trimming takes the white space off both ends and nothing else. */
  lemma TrimIs(before: string, s: string, after: string)
    requires Blank(before) && Blank(after) && Tight(s)
    ensures Trim(before + s + after) == s
  {
    Associative(before, s, after);
    if s == "" {
      assert before + s + after == before + after;
      assert Blank(before + after);
      BlankTrims(before + after);
    } else {
      TrimStartIs(before, s + after);
      TrimEndIs(s, after);
    }
  }

  lemma {:induction false} TrimStartSplits(s: string) returns (before: string)
    ensures Blank(before) && s == before + TrimStart(s) && (TrimStart(s) != "" ==> !IsSpace(TrimStart(s)[0]))
  {
    before := "";
    if s != "" && IsSpace(s[0]) {
      var rest := TrimStartSplits(s[1..]);
      before := [s[0]] + rest;
      assert s == [s[0]] + s[1..];
    }
  }

  lemma LastMoves(s: string, front: string, back: string)
    requires s != "" && s[..|s| - 1] == front + back
    ensures s == front + (back + [s[|s| - 1]])
  {
    Associative(front, back, [s[|s| - 1]]);
  }

  lemma {:induction false} TrimEndSplits(s: string) returns (after: string)
    ensures Blank(after) && s == TrimEnd(s) + after
    ensures TrimEnd(s) != "" ==> !IsSpace(TrimEnd(s)[|TrimEnd(s)| - 1])
    decreases |s|
  {
    if s != "" && IsSpace(s[|s| - 1]) {
      var n := |s| - 1;
      var back := TrimEndSplits(s[..n]);
      after := back + [s[n]];
      LastMoves(s, TrimEnd(s[..n]), back);
    } else {
      after := "";
    }
  }

  /** Every text has such ends. */
  lemma TrimSplits(s: string) returns (before: string, after: string)
    ensures Blank(before) && Blank(after) && Tight(Trim(s)) && s == before + Trim(s) + after
  {
    before := TrimStartSplits(s);
    after := TrimEndSplits(TrimStart(s));
    Associative(before, Trim(s), after);
  }

  /** The line is `data:` with `data` behind it, up to white space around both. */
  ghost predicate CarriesData(line: string, data: string) {
    Tight(data) && exists a, b, c :: IsDataLine(line, a, b, data, c)
  }

  predicate IsDataLine(line: string, a: string, b: string, data: string, c: string) {
    Blank(a) && Blank(b) && Blank(c) && line == a + "data:" + b + data + c
  }

  lemma DataLineTrims(line: string, a: string, b: string, data: string, c: string)
    requires Tight(data) && IsDataLine(line, a, b, data, c)
    ensures "data:" <= Trim(line) && Trim(Trim(line)[5..]) == data
  {
    var prefix := "data:";
    if data == "" {
      assert line == a + prefix + (b + c);
      assert Blank(b + c);
      TrimIs(a, prefix, b + c);
      TrimIs("", "", "");
    } else {
      var middle := prefix + b + data;
      assert line == a + middle + c;
      TrimIs(a, middle, c);
      assert middle[5..] == b + data + "";
      TrimIs(b, data, "");
    }
  }

  /**
   Which lines count, and for what. A line that carries data counts for what its data, parsed,
   reports, unless there is none, it is the end marker or it does not parse; every other line
   counts for nothing.
   */
  lemma LineCounts(parse: Parser, line: string)
    ensures forall data :: CarriesData(line, data) ==>
              PartialOf(parse, line)
              == if data == "" || data == "[DONE]" || parse(data).None? then None else NormalizeUsage(parse(data).value)
    ensures (forall data :: !CarriesData(line, data)) ==> PartialOf(parse, line) == None
  {
    forall data | CarriesData(line, data)
      ensures PartialOf(parse, line)
              == if data == "" || data == "[DONE]" || parse(data).None? then None else NormalizeUsage(parse(data).value)
    {
      var a, b, c :| IsDataLine(line, a, b, data, c);
      DataLineTrims(line, a, b, data, c);
    }
    if "data:" <= Trim(line) {
      var data := DataOfLine(line);
      assert CarriesData(line, data);
    }
  }

  lemma DataOfLine(line: string) returns (data: string)
    requires "data:" <= Trim(line)
    ensures CarriesData(line, data)
  {
    var prefix := "data:";
    var a, e := TrimSplits(line);
    var tail := Trim(line)[5..];
    var b, c := TrimSplits(tail);
    data := Trim(tail);
    assert Trim(line) == prefix + tail;
    assert line == a + prefix + b + data + (c + e);
    assert Blank(c + e);
    assert IsDataLine(line, a, b, data, c + e);
  }

  /** The reports of the lines that count, in order. */
  function Partials(parse: Parser, lines: seq<string>): seq<NormalizedUsage> {
    if lines == [] then []
    else if PartialOf(parse, lines[0]).Some? then [PartialOf(parse, lines[0]).value] + Partials(parse, lines[1..])
    else Partials(parse, lines[1..])
  }

  /** Metering lines is merging the reports of the lines that count. */
  lemma {:induction false} MeterLinesMerges(parse: Parser, usage: NormalizedUsage, lines: seq<string>)
    ensures MeterLines(parse, usage, lines) == MergeAll(usage, Partials(parse, lines))
    decreases |lines|
  {
    if lines != [] {
      MeterLinesMerges(parse, MeterLine(parse, usage, lines[0]), lines[1..]);
      var p := PartialOf(parse, lines[0]);
      if p.Some? {
        var rest := Partials(parse, lines[1..]);
        assert ([p.value] + rest)[0] == p.value && ([p.value] + rest)[1..] == rest;
      }
    }
  }

  function LineReports(parse: Parser): string -> bool { (line: string) => PartialOf(parse, line).Some? }

  function ReportOf(parse: Parser): (string, NormalizedUsage) -> bool {
    (line: string, p: NormalizedUsage) => PartialOf(parse, line) == Some(p)
  }

  /** There is one report for every line that counts, in order. */
  lemma {:induction false} PartialsExactly(parse: Parser, lines: seq<string>)
    ensures Filtered(lines, LineReports(parse), ReportOf(parse), Partials(parse, lines))
  {
    if lines == [] {
      FilteredNone(LineReports(parse), ReportOf(parse));
    } else {
      PartialsExactly(parse, lines[1..]);
      var head := FirstReport(parse, lines);
      FilteredMore(lines, LineReports(parse), ReportOf(parse), head, Partials(parse, lines[1..]));
    }
  }

  lemma FirstReport(parse: Parser, lines: seq<string>) returns (head: seq<NormalizedUsage>)
    requires lines != []
    ensures Partials(parse, lines) == head + Partials(parse, lines[1..])
    ensures if LineReports(parse)(lines[0]) then |head| == 1 && ReportOf(parse)(lines[0], head[0]) else head == []
  {
    var p := PartialOf(parse, lines[0]);
    head := if p.Some? then [p.value] else [];
  }

  /** The model of merged usages is the first one reported. */
  lemma {:induction false} MergedModelIsFirst(u: NormalizedUsage, partials: seq<NormalizedUsage>)
    ensures var model := MergeAll(u, partials).model;
            && (u.model.Some? ==> model == u.model)
            && (u.model.None? ==>
                  if forall p <- partials :: p.model.None? then model == None
                  else exists i :: 0 <= i < |partials| && partials[i].model.Some? && model == partials[i].model
                                   && forall j :: 0 <= j < i ==> partials[j].model.None?)
    decreases |partials|
  {
    if partials != [] {
      MergedModelIsFirst(MergeUsage(u, partials[0]), partials[1..]);
      assert forall p :: p in partials <==> p == partials[0] || p in partials[1..];
      if u.model.None? && partials[0].model.None? && exists p <- partials[1..] :: p.model.Some? {
        var rest, model := partials[1..], MergeAll(u, partials).model;
        var i :| 0 <= i < |rest| && rest[i].model.Some? && model == rest[i].model && forall j :: 0 <= j < i ==> rest[j].model.None?;
        assert partials[i + 1] == rest[i];
        forall j | 0 <= j < i + 1 ensures partials[j].model.None? {
          if j > 0 { assert partials[j] == rest[j - 1]; }
        }
      }
    }
  }

  // ----- the three wire shapes -----

  /** Chat completions report cached tokens inside the prompt tokens; so do Responses; Anthropic reports them beside. */
  lemma ShapesNormalize(prompt: int, completion: int, cached: Option<int>, total: Option<int>, model: Option<string>)
    ensures var chat := BareUsage.(promptTokens := Some(prompt), completionTokens := Some(completion), totalTokens := total,
                                   promptDetails := Details(cached, None, None));
            var responses := BareUsage.(inputTokens := Some(prompt), outputTokens := Some(completion), totalTokens := total,
                                        inputDetails := Details(cached, None, None));
            var anthropic := BareUsage.(inputTokens := Some(prompt - cached.GetOr(0)), outputTokens := Some(completion),
                                        totalTokens := total, cacheReadInputTokens := cached);
            var normal := Some(NormalizedUsage(model, Counts(Some(prompt), Some(completion), cached, None, None,
                                                             Some(total.GetOr(prompt + completion)), None)));
            && NormalizeUsage(UsageObject(model, Some(chat), NoInner, NoInner, None)) == normal
            && NormalizeUsage(UsageObject(model, Some(responses), NoInner, NoInner, None)) == normal
            && NormalizeUsage(UsageObject(None, None, NoInner, Inner(model, Some(responses)), None)) == normal
            && NormalizeUsage(UsageObject(model, Some(anthropic), NoInner, NoInner, None)) == normal
            && NormalizeUsage(UsageObject(None, None, Inner(model, Some(anthropic)), NoInner, None)) == normal
  {
  }
}
