/**
 Requests on which the Responses fitter does not do what one would expect: an orphan that it
 makes itself, and a last stage that makes the body longer.
 */
module ResponsesFitCases {
  import opened Common
  import opened JsonValues
  import opened StringPaths
  import opened ResponsesItems
  import opened ResponsesImages
  import opened ResponsesFit
  import opened ResponsesFitLaws

  /** Without images, orphans and more than two droppable items the first three stages change nothing. */
  lemma NothingToPrune(p: Json, ceiling: int)
    requires ValidPayload(p) && HasItems(p)
    requires LocationsFrom(Items(p), 0) == [] && DroppableCount(Items(p)) <= 2 && NoOrphans(Items(p))
    ensures StripImages(p, ceiling) == p && Pruned(p, ceiling) == p
  {
    AfterNoStrips(p);
    DropNone(Items(p));
    OrphanPassIsExact(Items(p));
    WithInputReads(p, Arr(Items(p)));
  }

  // ----- an orphan made by minimizing -----

  const CallItem := Obj([Field("type", Text("function_call")), Field("call_id", Text("c"))])
  const SystemOutput := Obj([Field("type", Text("function_call_output")), Field("call_id", Text("c")),
                             Field("role", Text("system"))])

  /** A call, and its output in a system item, under instructions of any length. */
  function OrphanPayload(instructions: JsString): Json {
    Obj([Field("model", Text("gpt-5")), Field("instructions", Str(instructions)),
         Field("input", Arr([CallItem, SystemOutput]))])
  }

  lemma CallReads()
    ensures IsToolCall(CallItem) && !IsToolCallOutput(CallItem) && !IsSystem(CallItem) && CallId(CallItem) == Some(Units("c"))
    ensures Parts(CallItem) == []
  {
    var f := CallItem.fields;
    assert f[0].key == "type" && f[1].key == "call_id";
    assert Find(f, "type") == 0 && Find(f, "call_id") == 1 && Find(f, "role") == 2 && Find(f, "content") == 2;
    EndsWithUnits("function", "_call");
    assert "function" + "_call" == "function_call";
    CallIsNoOutput(CallItem);
  }

  lemma OutputFields()
    ensures StringField(SystemOutput, "type") == Some(Units("function_call_output"))
    ensures StringField(SystemOutput, "call_id") == Some(Units("c")) && StringField(SystemOutput, "role") == Some(Units("system"))
    ensures Parts(SystemOutput) == []
  {
    var f := SystemOutput.fields;
    assert f[0].key == "type" && f[1].key == "call_id" && f[2].key == "role";
    assert Find(f, "type") == 0 && Find(f, "call_id") == 1 && Find(f, "role") == 2 && Find(f, "content") == 3;
  }

  lemma OutputType()
    ensures EndsWith(Some(Units("function_call_output")), "_call_output")
  {
    EndsWithUnits("function", "_call_output");
    assert "function" + "_call_output" == "function_call_output";
  }

  lemma OutputReads()
    ensures IsToolCallOutput(SystemOutput) && !IsToolCall(SystemOutput) && IsSystem(SystemOutput)
    ensures CallId(SystemOutput) == Some(Units("c"))
  {
    OutputFields();
    OutputType();
    if IsToolCall(SystemOutput) { CallIsNoOutput(SystemOutput); }
    assert |Units("c")| == 1;
  }

  lemma EndsWithUnits(a: string, b: string)
    ensures EndsWith(Some(Units(a + b)), b)
  {
    assert Units(a + b)[|a|..] == Units(b);
  }

  lemma OrphanPayloadReads(instructions: JsString)
    ensures var p := OrphanPayload(instructions);
            && ValidPayload(p) && HasItems(p) && Items(p) == [CallItem, SystemOutput]
            && Get(p, "instructions") == Some(Str(instructions))
  {
    var p := OrphanPayload(instructions);
    var f := p.fields;
    assert f[0].key == "model" && f[1].key == "instructions" && f[2].key == "input";
    assert Find(f, "instructions") == 1 && Find(f, "input") == 2;
    CallWf();
    assert forall v <- [CallItem, SystemOutput] :: Wf(v) && v.Obj?;
  }

  lemma CallWf()
    ensures Wf(CallItem) && Wf(SystemOutput)
  {
    var f, g := CallItem.fields, SystemOutput.fields;
    assert f[0].key == "type" && f[1].key == "call_id";
    assert g[0].key == "type" && g[1].key == "call_id" && g[2].key == "role";
  }

  lemma OrphanItems()
    ensures var items := [CallItem, SystemOutput];
            && LocationsFrom(items, 0) == [] && DroppableCount(items) == 1
            && NoOrphans(items) && !NoOrphans(Protected(items))
  {
    CallReads();
    OutputFields();
    OutputReads();
    var items := [CallItem, SystemOutput];
    assert items[1..] == [SystemOutput] && [SystemOutput][1..] == [];
    assert LocationsFrom(items, 2) == [] && LocationsFrom(items, 1) == [];
    assert DroppableCount(items[1..]) == 0;
    assert Answers(SystemOutput, CallItem) && CallItem in items;
    assert Protected(items) == Protected([SystemOutput]) == [SystemOutput];
    assert SystemOutput in Protected(items);
  }

  /** A string field's text is part of the body. */
  lemma FieldIsPartOfBody(p: Json, key: string, s: JsString)
    requires p.Obj? && Get(p, key) == Some(Str(s))
    ensures SerializedLength(p) >= |s|
  {
    SetLength(p, key, Str([]));
    EscapedLengthBounds(s);
  }

  /** Instructions longer than the ceiling keep the payload over it until the last stage. */
  lemma OrphanPayloadIsMinimized(ceiling: int, instructions: JsString)
    requires |instructions| > ceiling
    ensures var p := OrphanPayload(instructions);
            ValidPayload(p) && HasItems(p) && ReachesMinimizing(p, ceiling) && Pruned(p, ceiling) == p
  {
    var p := OrphanPayload(instructions);
    OrphanPayloadReads(instructions);
    OrphanItems();
    NothingToPrune(p, ceiling);
    FieldIsPartOfBody(p, "instructions", instructions);
    InputContentSound(p, ceiling);
    var c := TruncateInputContent(p, ceiling);
    SameOutsideField(p, c, "instructions");
    FieldIsPartOfBody(c, "instructions", instructions);
  }

  /** The input is minimized and the output loses its call. */
  lemma MinimizingMakesAnOrphan(ceiling: int, instructions: JsString)
    requires |instructions| > ceiling
    ensures var p := OrphanPayload(instructions);
            && ValidPayload(p) && HasItems(p) && NoOrphans(Items(p))
            && HasItems(Fitted(p, ceiling)) && !NoOrphans(Items(Fitted(p, ceiling)))
  {
    var p := OrphanPayload(instructions);
    OrphanPayloadReads(instructions);
    OrphanItems();
    OrphanPayloadIsMinimized(ceiling, instructions);
    FittedStages(p, ceiling);
    LastStageOrphans(p, ceiling);
  }

  // ----- a last stage that makes the body longer -----

  const Placeholder := DroppedItem(Null)

  function Repeat(unit: CodeUnit, n: nat): JsString {
    seq(n, _ => unit)
  }

  /** Instructions of 80 quotation marks, an input that is already minimal, and a response id of `n` letters. */
  function QuotesPayload(n: nat): Json {
    Obj(QuotesFields(Str(Repeat(97, n))))
  }

  lemma {:induction false} RepeatLength(unit: CodeUnit, n: nat)
    requires !IsHigh(unit)
    ensures EscapedLength(Repeat(unit, n)) == n * UnitCost(unit)
  {
    if n > 0 {
      RepeatLength(unit, n - 1);
      assert Repeat(unit, n)[1..] == Repeat(unit, n - 1);
    }
  }

  lemma QuotesKeys(id: Json)
    ensures var f := QuotesFields(id);
            && (forall i, j :: 0 <= i < j < |f| ==> f[i].key != f[j].key)
            && Find(f, "instructions") == 2 && Find(f, "input") == 3
  {
    var f := QuotesFields(id);
    assert f[0].key == "previous_response_id" && f[1].key == "model" && f[2].key == "instructions" && f[3].key == "input";
    assert |f[0].key| == 20 && |f[1].key| == 5 && |f[2].key| == 12;
    assert f[1].key[0] != f[3].key[0];
  }

  lemma QuotesPayloadReads(n: nat)
    ensures var p := QuotesPayload(n);
            && ValidPayload(p) && HasItems(p) && Items(p) == [Placeholder]
            && Get(p, "instructions") == Some(Str(Repeat(34, 80)))
  {
    QuotesKeys(Str(Repeat(97, n)));
    QuotesPayloadWf(n);
    assert AllObjects([Placeholder]);
  }

  lemma QuotesPayloadWf(n: nat)
    ensures Wf(QuotesPayload(n))
  {
    QuotesKeys(Str(Repeat(97, n)));
    DroppedIsPlain(Null);
    assert Wf(Arr([Placeholder]));
  }

  lemma PlaceholderReads()
    ensures StringField(Placeholder, "role") == Some(Units("user")) && !HasRole(Placeholder, "assistant")
    ensures |Units(INPUT_DROPPED_PLACEHOLDER)| == |INPUT_DROPPED_PLACEHOLDER| < 80
    ensures forall path :: FindLargestString(Placeholder, path) ==
                           Some(Candidate(|Units(INPUT_DROPPED_PLACEHOLDER)|, path + [Key("content")]))
  {
    var f := Placeholder.fields;
    assert f[0].key == "role" && f[1].key == "content";
    assert Find(f, "role") == 0;
    forall path ensures FindLargestString(Placeholder, path) ==
                        Some(Candidate(|Units(INPUT_DROPPED_PLACEHOLDER)|, path + [Key("content")]))
    {
      var inner := path + [Key("role")];
      assert Preserved(inner);
      assert !Preserved(path + [Key("content")]);
      assert FindInFields(f, 2, path, Some(Candidate(|Units(INPUT_DROPPED_PLACEHOLDER)|, path + [Key("content")])))
             == Some(Candidate(|Units(INPUT_DROPPED_PLACEHOLDER)|, path + [Key("content")]));
    }
  }

  lemma FourFields(f: seq<Field>, path: Path)
    requires |f| == 4
    ensures FindLargestString(Obj(f), path)
            == Larger(Larger(Larger(Larger(None, FindField(f, 0, path)), FindField(f, 1, path)), FindField(f, 2, path)),
                      FindField(f, 3, path))
  {
    var one := Larger(None, FindField(f, 0, path));
    var two := Larger(one, FindField(f, 1, path));
    var three := Larger(two, FindField(f, 2, path));
    var four := Larger(three, FindField(f, 3, path));
    assert FindInFields(f, 4, path, four) == four;
    assert FindInFields(f, 3, path, three) == four;
    assert FindInFields(f, 2, path, two) == four;
    assert FindInFields(f, 1, path, one) == four;
  }

  function FindField(f: seq<Field>, i: nat, path: Path): Option<Candidate>
    requires i < |f|
  {
    FindLargestString(f[i].value, path + [Key(f[i].key)])
  }

  lemma OneItem(item: Json, path: Path)
    ensures FindLargestString(Arr([item]), path) == FindLargestString(item, path + [Index(0)])
  {
    var found := FindLargestString(item, path + [Index(0)]);
    assert FindInItems([item], 1, path, Larger(None, found)) == found;
  }

  /** The quotation marks are the longest string that may be cut. */
  lemma QuotesAreLongest(n: nat)
    ensures FindLargestString(QuotesPayload(n), []) == Some(Candidate(80, [Key("instructions")]))
    ensures TargetString(QuotesPayload(n)) == Repeat(34, 80)
  {
    var p := QuotesPayload(n);
    PlaceholderReads();
    QuotesPayloadReads(n);
    FourFields(p.fields, []);
    OneItem(Placeholder, [] + [Key("input")]);
    assert [] + [Key("instructions")] == [Key("instructions")];
    assert Preserved([] + [Key("previous_response_id")]) && Preserved([] + [Key("model")]) && !Preserved([Key("instructions")]);
    assert At(p, [Key("instructions")]) == Some(Str(Repeat(34, 80))) by {
      assert [Key("instructions")][1..] == [];
    }
  }

  lemma LettersLength(n: nat)
    ensures SerializedLength(Str(Repeat(97, n))) == 2 + n
  {
    RepeatLength(97, n);
    assert UnitCost(97) == 1;
  }

  lemma FirstFieldLength(f: seq<Field>, v: Json)
    requires f != []
    ensures SerializedLength(Obj(f[0 := Field(f[0].key, v)]))
            == SerializedLength(Obj(f)) - SerializedLength(f[0].value) + SerializedLength(v)
  {
    FieldsLengthUpdate(f, 0, v);
  }

  function QuotesFields(id: Json): seq<Field> {
    [Field("previous_response_id", id), Field("model", Text("gpt-5")), Field("instructions", Str(Repeat(34, 80))),
     Field("input", Arr([Placeholder]))]
  }

  lemma OtherId(a: Json, b: Json)
    ensures QuotesFields(a)[0].key == "previous_response_id" && QuotesFields(a)[0].value == a
    ensures QuotesFields(a)[0 := Field("previous_response_id", b)] == QuotesFields(b)
  {
  }

  lemma OtherIdLength(a: Json, b: Json)
    ensures SerializedLength(Obj(QuotesFields(b))) == SerializedLength(Obj(QuotesFields(a))) - SerializedLength(a) + SerializedLength(b)
  {
    OtherId(a, b);
    FirstFieldLength(QuotesFields(a), b);
  }

  lemma IdLength(n: nat)
    ensures SerializedLength(QuotesPayload(n)) == SerializedLength(QuotesPayload(0)) + n
  {
    OtherIdLength(Str(Repeat(97, 0)), Str(Repeat(97, n)));
    LettersLength(0);
    LettersLength(n);
  }

  lemma PlaceholderLocation()
    ensures LargestInput([Placeholder], 1) == Some(StringLocation(0, |Units(INPUT_DROPPED_PLACEHOLDER)|, [Key("content")]))
  {
    PlaceholderReads();
    DroppedIsPlain(Null);
    assert LargestInput([Placeholder], 0) == None;
    assert [] + [Key("content")] == [Key("content")];
  }

  /** The content stage finds only the placeholder, and cutting it makes the body longer. */
  lemma PlaceholderCutGrows(p: Json, ceiling: int)
    requires ValidPayload(p) && HasItems(p) && Items(p) == [Placeholder] && !Fits(p, ceiling)
    ensures var c := TruncateInputContent(p, ceiling);
            && SerializedLength(c) == SerializedLength(p) + 64 && !Fits(c, ceiling)
            && c == WithInput(p, Arr([TruncateAt(Placeholder, [Key("content")], 0)]))
  {
    var length := PlaceholderLength();
    PlaceholderLocation();
    OneCutFitsExactly(p, ceiling);
    CutPlaceholder(p, SerializedLength(p) - ceiling);
  }

  lemma PlaceholderLength() returns (length: nat)
    ensures length == |Units(INPUT_DROPPED_PLACEHOLDER)| < 80
  {
    PlaceholderReads();
    length := |Units(INPUT_DROPPED_PLACEHOLDER)|;
  }

  lemma CutPlaceholder(p: Json, excess: int)
    requires HasItems(p) && Items(p) == [Placeholder] && excess > 0
    ensures CutInput(p, StringLocation(0, |Units(INPUT_DROPPED_PLACEHOLDER)|, [Key("content")]), excess)
            == WithInput(p, Arr([TruncateAt(Placeholder, [Key("content")], 0)]))
  {
    var length := PlaceholderLength();
    assert KeepLength(length, excess) == 0;
    var item := TruncateAt(Placeholder, [Key("content")], 0);
    assert [Placeholder][0 := item] == [item];
  }

  /** Cutting the input leaves the placeholder's role alone, and minimizing puts its text back. */
  lemma MinimalInputComesBack(n: nat, ceiling: int)
    requires !Fits(QuotesPayload(n), ceiling)
    ensures var p := QuotesPayload(n);
            && ValidPayload(p) && HasItems(p) && ReachesMinimizing(p, ceiling) && Minimized(p, ceiling) == p
  {
    var p := QuotesPayload(n);
    QuotesPayloadReads(n);
    PlaceholderItems();
    NothingToPrune(p, ceiling);
    PlaceholderCutGrows(p, ceiling);
    CutKeepsRole();
    MinimizeAgain(p, TruncateAt(Placeholder, [Key("content")], 0));
  }

  lemma CutKeepsRole()
    ensures StringField(TruncateAt(Placeholder, [Key("content")], 0), "role") == Some(Units("user"))
    ensures TruncateAt(Placeholder, [Key("content")], 0).Obj?
  {
    PlaceholderReads();
    var f := Placeholder.fields;
    assert f[0].key == "role" && f[1].key == "content";
    assert Find(f, "content") == 1;
    assert [Key("content")][1..] == [];
    CutKeepsField(Placeholder, [Key("content")], 0, "role");
  }

  /** A user item is minimized to the placeholder, whatever it holds. */
  lemma MinimizeAgain(p: Json, item: Json)
    requires Wf(p) && HasItems(p) && Items(p) == [Placeholder]
    requires item.Obj? && StringField(item, "role") == Some(Units("user"))
    ensures HasItems(WithInput(p, Arr([item]))) && MinimizeInput(WithInput(p, Arr([item]))) == p
  {
    WithInputReads(p, Arr([item]));
    UserIsPlain(item);
    var c := WithInput(p, Arr([item]));
    assert [item][1..] == [] && Protected([item]) == [];
    assert [] + [Placeholder] == [Placeholder];
    SetSet(p, "input", Arr([item]), Arr([Placeholder]));
    assert Get(p, "input").value == Arr([Placeholder]);
  }

  lemma UserIsPlain(item: Json)
    requires StringField(item, "role") == Some(Units("user"))
    ensures !IsSystem(item) && DroppedItem(item) == Placeholder
  {
    assert |Units("user")| == 4 && |Units("system")| == 6 && |Units("developer")| == 9 && |Units("assistant")| == 9;
    assert !HasRole(Null, "assistant");
  }

  lemma PlaceholderItems()
    ensures LocationsFrom([Placeholder], 0) == [] && DroppableCount([Placeholder]) == 1 && NoOrphans([Placeholder])
  {
    DroppedIsPlain(Null);
  }

  lemma {:induction false} KeyLengthBound(key: string)
    ensures KeyLength(key) <= 6 * |key|
  {
    if key != "" { KeyLengthBound(key[1..]); }
  }

  lemma FieldsBound(a: Field, rest: seq<Field>)
    ensures FieldsLength([a] + rest) <= 6 * |a.key| + 3 + SerializedLength(a.value) + FieldsLength(rest)
  {
    KeyLengthBound(a.key);
    assert ([a] + rest)[0] == a && ([a] + rest)[1..] == rest;
  }

  lemma TwoFieldsBound(a: Field, b: Field)
    ensures SerializedLength(Obj([a, b]))
            <= 9 + 6 * (|a.key| + |b.key|) + SerializedLength(a.value) + SerializedLength(b.value)
  {
    FieldsBound(b, []);
    FieldsBound(a, [b]);
    assert [a] + [b] == [a, b] && [b] + [] == [b];
  }

  lemma FourFieldsBound(a: Field, b: Field, c: Field, d: Field)
    ensures SerializedLength(Obj([a, b, c, d]))
            <= 17 + 6 * (|a.key| + |b.key| + |c.key| + |d.key|)
               + SerializedLength(a.value) + SerializedLength(b.value) + SerializedLength(c.value) + SerializedLength(d.value)
  {
    FieldsBound(d, []);
    FieldsBound(c, [d]);
    FieldsBound(b, [c, d]);
    FieldsBound(a, [b, c, d]);
    assert [a] + [b, c, d] == [a, b, c, d] && [b] + [c, d] == [b, c, d] && [c] + [d] == [c, d] && [d] + [] == [d];
  }

  lemma OneItemLength(item: Json)
    ensures SerializedLength(Arr([item])) == 2 + SerializedLength(item)
  {
    assert [item][1..] == [];
    assert ItemsLength([item]) == SerializedLength(item) + ItemsLength([]);
  }

  lemma TextBound(words: string)
    ensures SerializedLength(Text(words)) <= 2 + 6 * |words|
  {
    EscapedLengthBounds(Units(words));
  }

  lemma PlaceholderIs()
    ensures Placeholder == Obj([Field("role", Text("user")), Field("content", Text(INPUT_DROPPED_PLACEHOLDER))])
  {
    assert !HasRole(Null, "assistant");
  }

  lemma PlaceholderIsShort()
    ensures SerializedLength(Placeholder) <= 600
  {
    var role, content := Field("role", Text("user")), Field("content", Text(INPUT_DROPPED_PLACEHOLDER));
    PlaceholderIs();
    PlaceholderReads();
    TextBound("user");
    TextBound(INPUT_DROPPED_PLACEHOLDER);
    TwoFieldsBound(role, content);
    assert |role.key| == 4 && |content.key| == 7 && |"user"| == 4;
  }

  /** Without a response id the payload is short. */
  lemma QuotesPayloadIsShort()
    ensures SerializedLength(QuotesPayload(0)) <= 1_200
  {
    var f := QuotesFields(Str(Repeat(97, 0)));
    LettersLength(0);
    TextBound("gpt-5");
    RepeatLength(34, 80);
    PlaceholderIsShort();
    OneItemLength(Placeholder);
    FourFieldsBound(f[0], f[1], f[2], f[3]);
    assert |f[0].key| == 20 && |f[1].key| == 5 && |f[2].key| == 12 && |f[3].key| == 5 && |"gpt-5"| == 5;
  }

  /**
   Under every ceiling the last stage can make a body longer that cutting the excess would
   have made fit: what it keeps of the string is all but one quotation mark.
   */
  lemma LastStageGrows(ceiling: int) returns (p: Json)
    requires ceiling >= 1_200
    ensures ValidPayload(p) && HasItems(p) && SerializedLength(p) == ceiling + 79 && |TargetString(p)| == 80
    ensures SerializedLength(Fitted(p, ceiling)) == SerializedLength(p) + 62
    ensures FindLargestString(p, []).Some?
            && Fits(TruncateAt(p, FindLargestString(p, []).value.path, |TargetString(p)| - 79), ceiling)
  {
    QuotesPayloadIsShort();
    var n := ceiling + 79 - SerializedLength(QuotesPayload(0));
    p := QuotesPayload(n);
    IdLength(n);
    MinimalInputComesBack(n, ceiling);
    FittedStages(p, ceiling);
    QuotesAreLongest(n);
    QuotesTail(80, 79);
    QuotesTail(80, 1);
    PayloadCutExactly(p, ceiling);
    TruncateLength(p, [Key("instructions")], 1);
    PrefixLength(SliceTail(Repeat(34, 80), 1));
    TargetIsString(p);
  }

  lemma QuotesTail(n: nat, keep: nat)
    requires 0 < keep < n
    ensures EscapedLength(SliceTail(Repeat(34, n), keep)) == 2 * keep && EscapedLength(Repeat(34, n)) == 2 * n
  {
    assert SliceTail(Repeat(34, n), keep) == Repeat(34, keep);
    RepeatLength(34, n);
    RepeatLength(34, keep);
  }

  // ----- a text input -----

  function TextPayload(n: nat): Json {
    Obj([Field("model", Text("gpt-5")), Field("input", Str(Repeat(97, n)))])
  }

  lemma TextPayloadReads(n: nat)
    ensures HasText(TextPayload(n)) && Get(TextPayload(n), "input") == Some(Str(Repeat(97, n)))
    ensures WithInput(TextPayload(n), Str([])) == TextPayload(0)
  {
    var f := TextPayload(n).fields;
    assert f[0].key == "model" && f[1].key == "input";
    assert Find(f, "input") == 1;
    assert Repeat(97, 0) == [];
    assert f[1 := Field("input", Str([]))] == TextPayload(0).fields;
  }

  lemma TextOverhead()
    ensures SerializedLength(TextPayload(0)) <= 200
  {
    var model, input := Field("model", Text("gpt-5")), Field("input", Str(Repeat(97, 0)));
    LettersLength(0);
    TextBound("gpt-5");
    TwoFieldsBound(model, input);
    assert |model.key| == 5 && |input.key| == 5 && |"gpt-5"| == 5;
  }

  /** Text of one repeated letter that is cut comes out exactly two over the ceiling. */
  lemma LettersOvershoot(p: Json, ceiling: int, n: nat)
    requires HasText(p) && Get(p, "input") == Some(Str(Repeat(97, n))) && !Fits(p, ceiling) && CutsText(p, ceiling)
    ensures SerializedLength(Fitted(p, ceiling)) == ceiling + 2
  {
    var room := TailRoom(p, ceiling);
    FittedText(p, ceiling);
    assert Repeat(97, n)[n - room..] == Repeat(97, room);
    LettersLength(room);
  }

  lemma TextPayloadLength(n: nat)
    ensures SerializedLength(TextPayload(n)) == SerializedLength(TextPayload(0)) + n
  {
    TextPayloadReads(n);
    TextLength(TextPayload(n), []);
    RepeatLength(97, n);
    assert UnitCost(97) == 1;
  }

  /** Under every ceiling a plain text as long as the ceiling comes out two characters over it. */
  lemma PlainTextStaysOver(ceiling: nat)
    requires ceiling >= 1_000
    ensures var p := TextPayload(ceiling);
            && HasText(p) && !Fits(p, ceiling)
            && SerializedLength(Fitted(p, ceiling)) == ceiling + 2
  {
    TextPayloadReads(ceiling);
    TextPayloadLength(ceiling);
    TextOverhead();
    PrefixLength([]);
    assert SerializedLength(TextPayload(0)) >= 2;
    LettersOvershoot(TextPayload(ceiling), ceiling, ceiling);
  }
}
