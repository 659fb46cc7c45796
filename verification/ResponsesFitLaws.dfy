/** What holds of a fitted Responses request whatever stages it went through. */
module ResponsesFitLaws {
  import opened Common
  import opened JsonValues
  import opened StringPaths
  import opened ResponsesItems
  import opened ResponsesImages
  import opened ResponsesFit

  // ----- cuts leave calls, call ids, roles and models alone -----

  /** The field `k` is the same text, or is no text in both. */
  predicate SameField(a: Json, b: Json, k: string) {
    StringField(a, k) == StringField(b, k)
  }

  lemma CutKeepsField(v: Json, path: Path, keep: nat, k: string)
    requires At(v, path).Some? && At(v, path).value.Str? && !Preserved(path)
    requires k in PRESERVED_INPUT_STRING_KEYS
    ensures SameField(v, TruncateAt(v, path, keep), k)
  {
    if path != [] {
      var c := Child(v, path[0]).value;
      var d := TruncateAt(c, path[1..], keep);
      WithChildChild(v, path[0], d, Key(k));
      assert path[1..] == [] ==> path[|path| - 1] == path[0];
      if path[0] == Key(k) && path[1..] != [] {
        assert Child(c, path[1..][0]).Some?;
      }
    }
  }

  lemma CutRewritesItem(v: Json, path: Path, keep: nat)
    requires At(v, path).Some? && At(v, path).value.Str? && !Preserved(path)
    ensures SameCall(v, TruncateAt(v, path, keep)) && IsSystem(v) == IsSystem(TruncateAt(v, path, keep))
  {
    CutKeepsField(v, path, keep, "type");
    CutKeepsField(v, path, keep, "call_id");
    CutKeepsField(v, path, keep, "role");
    SameFieldsSameCall(v, TruncateAt(v, path, keep));
  }

  /** A cut below `input` is a cut of one item. */
  lemma InputCutRewrites(c: Json, path: Path, keep: nat)
    requires c.Arr? && AllObjects(c.items)
    requires path != [] && At(c, path).Some? && At(c, path).value.Str? && !Preserved(path)
    ensures var d := TruncateAt(c, path, keep); d.Arr? && AllObjects(d.items) && Rewrites(c.items, d.items)
  {
    var i := path[0].i;
    var item, rest := c.items[i], path[1..];
    assert item in c.items && rest != [] && Preserved(rest) == Preserved(path);
    CutRewritesItem(item, rest, keep);
    TruncateKeepsObj(item, rest, keep);
    OneItemRewrites(c.items, i, TruncateAt(item, rest, keep));
  }

  /** A cut of the whole payload is a cut of at most one item. */
  lemma PayloadCutRewrites(p: Json, path: Path, keep: nat)
    requires Wf(p) && HasItems(p)
    requires At(p, path).Some? && At(p, path).value.Str? && !Preserved(path)
    ensures var r := TruncateAt(p, path, keep);
            && Wf(r) && HasItems(r) && Rewrites(Items(p), Items(r))
  {
    TruncateKeepsWf(p, path, keep);
    assert path != [];
    var c := Child(p, path[0]).value;
    WithChildChild(p, path[0], TruncateAt(c, path[1..], keep), Key("input"));
    if path[0] == Key("input") {
      assert path[1..] != [] && Preserved(path[1..]) == Preserved(path);
      InputCutRewrites(c, path[1..], keep);
    } else {
      Unchanged(p);
    }
  }

  lemma TruncateKeepsObj(v: Json, path: Path, keep: nat)
    requires v.Obj?
    ensures TruncateAt(v, path, keep).Obj?
  {
  }

  lemma OnePayloadCut(p: Json, ceiling: int)
    requires Wf(p) && HasItems(p) && !Fits(p, ceiling) && FindLargestString(p, []).Some?
    ensures var next := CutPayload(p, FindLargestString(p, []).value.path, ceiling);
            && Wf(next) && HasItems(next) && Rewrites(Items(p), Items(next))
            && (forall k :: k in PRESERVED_INPUT_STRING_KEYS ==> SameField(p, next, k))
  {
    var path := FindLargestString(p, []).value.path;
    BestAlone(p);
    assert [] + path == path;
    PayloadCutRewrites(p, path, SerializedLength(p) - ceiling);
    forall k | k in PRESERVED_INPUT_STRING_KEYS ensures SameField(p, CutPayload(p, path, ceiling), k) {
      CutKeepsField(p, path, SerializedLength(p) - ceiling, k);
    }
  }

  lemma SameFieldTransitive(a: Json, b: Json, c: Json)
    requires forall k :: k in PRESERVED_INPUT_STRING_KEYS ==> SameField(a, b, k)
    requires forall k :: k in PRESERVED_INPUT_STRING_KEYS ==> SameField(b, c, k)
    ensures forall k :: k in PRESERVED_INPUT_STRING_KEYS ==> SameField(a, c, k)
  {
    forall k | k in PRESERVED_INPUT_STRING_KEYS ensures SameField(a, c, k) {
      assert SameField(a, b, k) && SameField(b, c, k);
    }
  }

  lemma {:induction false} TruncatePayloadRewrites(p: Json, ceiling: int)
    requires Wf(p) && HasItems(p)
    ensures var r := TruncatePayload(p, ceiling);
            && Wf(r) && HasItems(r)
            && |Items(r)| == |Items(p)| && Rewrites(Items(p), Items(r))
            && (NoOrphans(Items(p)) <==> NoOrphans(Items(r)))
            && (forall k :: k in PRESERVED_INPUT_STRING_KEYS ==> SameField(p, r, k))
    decreases SerializedLength(p)
  {
    var target := FindLargestString(p, []);
    if Fits(p, ceiling) || target.None? {
      Unchanged(p);
    } else {
      var next := CutPayload(p, target.value.path, ceiling);
      OnePayloadCut(p, ceiling);
      RewritesNoOrphans(Items(p), Items(next));
      if SerializedLength(next) < SerializedLength(p) {
        TruncatePayloadRewrites(next, ceiling);
        RewritesTransitive(Items(p), Items(next), Items(TruncatePayload(next, ceiling)));
        SameFieldTransitive(p, next, TruncatePayload(next, ceiling));
      }
    }
  }

  // ----- stage by stage -----

  predicate SameOutside(p: Json, r: Json) {
    p.Obj? && r.Obj? && p.fields != [] && |p.fields| == |r.fields|
    && forall i :: 0 <= i < |p.fields| ==> p.fields[i].key == r.fields[i].key && (p.fields[i].key != "input" ==> p.fields[i] == r.fields[i])
  }

  lemma WithInputSameOutside(p: Json, input: Json)
    requires p.Obj? && Get(p, "input").Some?
    ensures SameOutside(p, WithInput(p, input))
  {
  }

  lemma SameOutsideTransitive(a: Json, b: Json, c: Json)
    requires SameOutside(a, b) && SameOutside(b, c)
    ensures SameOutside(a, c)
  {
  }

  lemma StripSound(p: Json, ceiling: int)
    requires ValidPayload(p) && HasItems(p)
    ensures Wf(StripImages(p, ceiling)) && HasItems(StripImages(p, ceiling)) && SameOutside(p, StripImages(p, ceiling))
    ensures Rewrites(Items(p), Items(StripImages(p, ceiling)))
    ensures NoOrphans(Items(p)) <==> NoOrphans(Items(StripImages(p, ceiling)))
    ensures NoOrphans(Protected(Items(p))) <==> NoOrphans(Protected(Items(StripImages(p, ceiling))))
  {
    var n := StripCount(p, ceiling, 0);
    AfterStripsReads(p, n);
    StripRewrites(Items(p), LocationsFrom(Items(p), 0), n);
    RewritesNoOrphans(Items(p), StripFirst(Items(p), LocationsFrom(Items(p), 0), n));
    WithInputSameOutside(p, Arr(StripFirst(Items(p), LocationsFrom(Items(p), 0), n)));
  }

  lemma DropSameOutside(p: Json, ceiling: int)
    requires ValidPayload(p) && HasItems(p)
    requires Wf(DropOldInputItems(p, ceiling)) && HasItems(DropOldInputItems(p, ceiling))
    ensures SameOutside(p, DropOrphanedToolCallOutputs(DropOldInputItems(p, ceiling)))
  {
    var d := DropOldInputItems(p, ceiling);
    WithInputSameOutside(p, Arr(DropFirst(Items(p), DropCount(p, ceiling, 0))));
    WithInputSameOutside(d, Arr(DropOrphans(Items(d))));
    SameOutsideTransitive(p, d, DropOrphanedToolCallOutputs(d));
  }

  /** After dropping and the orphan pass there is no orphan, even if there was one before. */
  lemma DropSound(p: Json, ceiling: int)
    requires ValidPayload(p) && HasItems(p)
    ensures var d := DropOldInputItems(p, ceiling);
            && Wf(d) && HasItems(d)
            && var r := DropOrphanedToolCallOutputs(d);
               && Wf(r) && HasItems(r) && SameOutside(p, r) && NoOrphans(Items(r))
               && |Items(r)| == |Items(p)|
               && (NoOrphans(Protected(Items(p))) ==> NoOrphans(Protected(Items(r))))
  {
    DropIsMinimal(p, ceiling);
    DropSameOutside(p, ceiling);
    var d := DropOldInputItems(p, ceiling);
    OrphanPassValid(d);
    OrphanPassLeavesNone(Items(d));
    if NoOrphans(Protected(Items(p))) {
      OrphanPassKeepsProtected(Items(d));
    }
  }

  lemma InputContentSound(p: Json, ceiling: int)
    requires ValidPayload(p) && HasItems(p)
    ensures var r := TruncateInputContent(p, ceiling);
            && Wf(r) && HasItems(r) && SameOutside(p, r) && Rewrites(Items(p), Items(r))
  {
    var l := LargestInput(Items(p), |Items(p)|);
    if Fits(p, ceiling) || l.None? {
      Unchanged(p);
    } else {
      OneCut(p, ceiling);
      CutInputSound(p, l.value, SerializedLength(p) - ceiling);
      InputContentValid(p, ceiling);
    }
  }

  lemma Unchanged(p: Json)
    requires HasItems(p)
    ensures SameOutside(p, p) && Rewrites(Items(p), Items(p))
  {
  }

  lemma CutInputSound(p: Json, at: StringLocation, excess: int)
    requires ValidPayload(p) && HasItems(p) && at.inputIndex < |Items(p)|
    requires Eligible(Items(p)[at.inputIndex], [], at.path)
    ensures var r := CutInput(p, at, excess);
            HasItems(r) && SameOutside(p, r) && Rewrites(Items(p), Items(r))
  {
    var item := Items(p)[at.inputIndex];
    var keep := KeepLength(at.length, excess);
    assert [] + at.path == at.path;
    CutRewritesItem(item, at.path, keep);
    var items := Items(p)[at.inputIndex := TruncateAt(item, at.path, keep)];
    WithInputReads(p, Arr(items));
    WithInputSameOutside(p, Arr(items));
    OneItemRewrites(Items(p), at.inputIndex, TruncateAt(item, at.path, keep));
    TruncateKeepsObj(item, at.path, keep);
  }

  lemma OneItemRewrites(items: seq<Json>, i: nat, item: Json)
    requires i < |items| && SameCall(items[i], item) && IsSystem(items[i]) == IsSystem(item)
    ensures Rewrites(items, items[i := item])
  {
  }

  /** Keeping only protected items and a placeholder is orphan-free exactly when the protected items are. */
  lemma MinimizeOrphansExactly(p: Json)
    requires Wf(p) && HasItems(p)
    ensures var r := MinimizeInput(p);
            && Wf(r) && HasItems(r) && SameOutside(p, r)
            && |Items(r)| == |Protected(Items(p))| + 1
            && (NoOrphans(Items(r)) <==> NoOrphans(Protected(Items(p))))
  {
    var protected := Protected(Items(p));
    var latest := Latest(Items(p));
    var d := DroppedItem(if latest.Some? then latest.value else Null);
    DroppedIsPlain(if latest.Some? then latest.value else Null);
    var items := protected + [d];
    assert Wf(Get(p, "input").value);
    forall i | 0 <= i < |items| ensures Wf(items[i]) && items[i].Obj? {
      if i < |protected| { ProtectedMembers(Items(p), items[i]); }
    }
    WithItemsValid(p, items);
    WithInputSameOutside(p, Arr(items));
    assert forall x :: x in items <==> x in protected || x == d;
  }

  /** The last item that is not protected, if there is one. */
  predicate IsLatest(items: seq<Json>, i: int) {
    0 <= i < |items| && !IsSystem(items[i]) && forall j :: i < j < |items| ==> IsSystem(items[j])
  }

  lemma {:induction false} LatestExactly(items: seq<Json>) returns (i: int)
    ensures Latest(items).Some? <==> IsLatest(items, i)
    ensures Latest(items).Some? ==> Latest(items).value == items[i]
    ensures Latest(items).None? ==> forall x <- items :: IsSystem(x)
    decreases |items|
  {
    i := |items| - 1;
    if items != [] && IsSystem(items[i]) {
      var n := |items| - 1;
      assert items == items[..n] + [items[n]];
      i := LatestExactly(items[..n]);
      assert forall j :: 0 <= j < n ==> items[j] == items[..n][j];
    }
  }

  /**
   Minimizing keeps the protected items, in order, and ends with one placeholder: an
   assistant's if the last of the others was an assistant's, a user's otherwise.
   */
  lemma MinimizedItems(p: Json) returns (i: int, placeholder: Json)
    requires Wf(p) && HasItems(p)
    ensures HasItems(MinimizeInput(p)) && Items(MinimizeInput(p)) == Protected(Items(p)) + [placeholder]
    ensures (forall x <- Items(p) :: IsSystem(x)) || IsLatest(Items(p), i)
    ensures StringField(placeholder, "content") == Some(Units("[older response input omitted to stay under context limit]"))
    ensures StringField(placeholder, "role")
            == Some(Units(if IsLatest(Items(p), i) && HasRole(Items(p)[i], "assistant") then "assistant" else "user"))
  {
    i := LatestExactly(Items(p));
    var latest := Latest(Items(p));
    placeholder := DroppedItem(if latest.Some? then latest.value else Null);
    DroppedReads(if latest.Some? then latest.value else Null);
    MinimizeOrphansExactly(p);
    WithInputReads(p, Arr(Protected(Items(p)) + [placeholder]));
  }

  /** The payload after images, old items and orphaned outputs went. */
  function Pruned(p: Json, ceiling: int): (b: Json)
    requires ValidPayload(p) && HasItems(p)
    ensures Wf(b) && HasItems(b)
  {
    StripSound(p, ceiling);
    var a := StripImages(p, ceiling);
    DropSound(a, ceiling);
    DropOrphanedToolCallOutputs(DropOldInputItems(a, ceiling))
  }

  /** The stages before the last one, on a list of items. */
  function Minimized(p: Json, ceiling: int): Json
    requires ValidPayload(p) && HasItems(p)
  {
    InputContentSound(Pruned(p, ceiling), ceiling);
    MinimizeInput(TruncateInputContent(Pruned(p, ceiling), ceiling))
  }

  /** The input is minimized: the payload fits at none of the exits before. */
  predicate ReachesMinimizing(p: Json, ceiling: int)
    requires ValidPayload(p) && HasItems(p)
  {
    && !Fits(p, ceiling) && !Fits(StripImages(p, ceiling), ceiling)
    && !Fits(Pruned(p, ceiling), ceiling) && !Fits(TruncateInputContent(Pruned(p, ceiling), ceiling), ceiling)
  }

  /** Where the fitter stops. */
  lemma FittedStages(p: Json, ceiling: int)
    requires ValidPayload(p) && HasItems(p)
    ensures Fitted(p, ceiling)
            == if Fits(p, ceiling) then p
               else if Fits(StripImages(p, ceiling), ceiling) then StripImages(p, ceiling)
               else if Fits(Pruned(p, ceiling), ceiling) then Pruned(p, ceiling)
               else if !ReachesMinimizing(p, ceiling) then TruncateInputContent(Pruned(p, ceiling), ceiling)
               else TruncatePayload(Minimized(p, ceiling), ceiling)
  {
    if !Fits(p, ceiling) {
      StripSound(p, ceiling);
      DropSound(StripImages(p, ceiling), ceiling);
      InputContentSound(Pruned(p, ceiling), ceiling);
    }
  }

  /** `Pruned` holds no orphan, and its protected items hold none if those of the payload did not. */
  lemma PrunedSound(p: Json, ceiling: int)
    requires ValidPayload(p) && HasItems(p)
    ensures var b := Pruned(p, ceiling);
            && SameOutside(p, b) && NoOrphans(Items(b))
            && (NoOrphans(Protected(Items(p))) ==> NoOrphans(Protected(Items(b))))
  {
    StripSound(p, ceiling);
    var a := StripImages(p, ceiling);
    DropSound(a, ceiling);
    SameOutsideTransitive(p, a, Pruned(p, ceiling));
  }

  // ----- the main results -----

  lemma MinimizedSound(p: Json, ceiling: int)
    requires ValidPayload(p) && HasItems(p)
    ensures var m := Minimized(p, ceiling);
            && Wf(m) && HasItems(m) && SameOutside(p, m)
            && (NoOrphans(Items(m)) <==> NoOrphans(Protected(Items(Pruned(p, ceiling)))))
  {
    PrunedSound(p, ceiling);
    var b := Pruned(p, ceiling);
    InputContentSound(b, ceiling);
    var c := TruncateInputContent(b, ceiling);
    RewritesNoOrphans(Items(b), Items(c));
    MinimizeOrphansExactly(c);
    SameOutsideTransitive(p, b, c);
    SameOutsideTransitive(p, c, MinimizeInput(c));
  }

  lemma LastStageOrphans(p: Json, ceiling: int)
    requires ValidPayload(p) && HasItems(p)
    ensures var r := TruncatePayload(Minimized(p, ceiling), ceiling);
            HasItems(r) && (NoOrphans(Items(r)) <==> NoOrphans(Protected(Items(Pruned(p, ceiling)))))
  {
    MinimizedSound(p, ceiling);
    TruncatePayloadRewrites(Minimized(p, ceiling), ceiling);
  }

  lemma CutOrphans(p: Json, ceiling: int)
    requires ValidPayload(p) && HasItems(p)
    ensures var c := TruncateInputContent(Pruned(p, ceiling), ceiling); HasItems(c) && NoOrphans(Items(c))
  {
    PrunedSound(p, ceiling);
    var b := Pruned(p, ceiling);
    InputContentSound(b, ceiling);
    RewritesNoOrphans(Items(b), Items(TruncateInputContent(b, ceiling)));
  }

  /** How many old items the fitter drops, if it comes to dropping. */
  function DroppedItems(p: Json, ceiling: int): nat
    requires ValidPayload(p) && HasItems(p)
  {
    StripSound(p, ceiling);
    DropsFromStart(StripImages(p, ceiling), ceiling)
  }

  function DropsFromStart(a: Json, ceiling: int): nat
    requires HasItems(a)
  {
    DropCount(a, ceiling, 0)
  }

  /** Whether the protected items hold an orphan when minimizing is reached, read off the payload's own items. */
  lemma PrunedOrphansExactly(p: Json, ceiling: int)
    requires ValidPayload(p) && HasItems(p)
    ensures NoOrphans(Protected(Items(Pruned(p, ceiling)))) <==> !LosesCall(Items(p), DroppedItems(p, ceiling))
  {
    StripSound(p, ceiling);
    var a := StripImages(p, ceiling);
    var k := DroppedItems(p, ceiling);
    PrunedItems(a, ceiling);
    SweptOrphansExactly(Items(a), k);
    RewritesLosesCall(Items(p), Items(a), k);
  }

  lemma PrunedItems(a: Json, ceiling: int)
    requires ValidPayload(a) && HasItems(a)
    ensures HasItems(DropOldInputItems(a, ceiling))
    ensures var b := DropOrphanedToolCallOutputs(DropOldInputItems(a, ceiling));
            HasItems(b) && Items(b) == DropOrphans(DropFirst(Items(a), DropCount(a, ceiling, 0)))
  {
    DropIsMinimal(a, ceiling);
    OrphanPassValid(DropOldInputItems(a, ceiling));
  }

  /**
   When the answer holds an orphan, exactly, in terms of the payload's items: up to the
   stripping of images if the payload held one; later if the input is minimized and some
   protected output has its call only in unprotected items that were not dropped. (Had they
   all been dropped, the output would have been swept away with them.)
   */
  lemma FittedOrphansExactly(p: Json, ceiling: int)
    requires ValidPayload(p) && HasItems(p)
    ensures var r := Fitted(p, ceiling);
            && HasItems(r)
            && (NoOrphans(Items(r))
                <==> if Fits(p, ceiling) || Fits(StripImages(p, ceiling), ceiling) then NoOrphans(Items(p))
                     else ReachesMinimizing(p, ceiling) ==> !LosesCall(Items(p), DroppedItems(p, ceiling)))
    ensures NoOrphans(Items(p)) ==>
              (NoOrphans(Items(Fitted(p, ceiling)))
               <==> !(ReachesMinimizing(p, ceiling) && LosesCall(Items(p), DroppedItems(p, ceiling))))
  {
    FittedStages(p, ceiling);
    StripSound(p, ceiling);
    PrunedSound(p, ceiling);
    CutOrphans(p, ceiling);
    LastStageOrphans(p, ceiling);
    PrunedOrphansExactly(p, ceiling);
  }

  /**
   Fitting never creates an orphan, at any exit: if every tool output has its call, among
   all items and among the system and developer items alone (which holds when those carry
   no tool items), the same holds of the result.
   */
  lemma FittingCreatesNoOrphan(p: Json, ceiling: int)
    requires ValidPayload(p) && HasItems(p)
    requires NoOrphans(Items(p)) && NoOrphans(Protected(Items(p)))
    ensures HasItems(Fitted(p, ceiling)) && NoOrphans(Items(Fitted(p, ceiling)))
  {
    FittedOrphansExactly(p, ceiling);
    PrunedSound(p, ceiling);
    PrunedOrphansExactly(p, ceiling);
  }

  /** When fitting a list of items succeeds, exactly. */
  lemma FittedFitsExactly(p: Json, ceiling: int)
    requires ValidPayload(p) && HasItems(p)
    ensures var m := Minimized(p, ceiling);
            Fits(Fitted(p, ceiling), ceiling)
            <==> || !ReachesMinimizing(p, ceiling) || Fits(m, ceiling)
                 || exists last :: CutsTo(m, last, ceiling) && CutSuffices(last, ceiling)
  {
    FittedStages(p, ceiling);
    MinimizedSound(p, ceiling);
    LastStageFitsExactly(Minimized(p, ceiling), ceiling);
  }

  /** The fitter either stops at a payload that differs only in its input, or reaches the last stage. */
  lemma FittedOrLastStage(p: Json, ceiling: int)
    requires ValidPayload(p) && HasItems(p)
    ensures var r := Fitted(p, ceiling);
            || (Fits(r, ceiling) && Wf(r) && HasItems(r) && (r == p || SameOutside(p, r)))
            || (!Fits(Minimized(p, ceiling), ceiling) && r == TruncatePayload(Minimized(p, ceiling), ceiling))
  {
    FittedStages(p, ceiling);
    StripSound(p, ceiling);
    PrunedSound(p, ceiling);
    var b := Pruned(p, ceiling);
    InputContentSound(b, ceiling);
    SameOutsideTransitive(p, b, TruncateInputContent(b, ceiling));
    MinimizedSound(p, ceiling);
  }

  /**
   The fitter's answer: the payload itself when it fits; otherwise a valid payload that
   fits, or one whose input is down to the protected items and a placeholder and whose
   strings were cut until a cut no longer helped. Everything outside `input` is untouched
   until that last stage, which still keeps every preserved field such as the model.
   */
  lemma FittedAnswer(p: Json, ceiling: int)
    requires ValidPayload(p) && HasItems(p)
    ensures var r := Fitted(p, ceiling);
            && (Fits(p, ceiling) ==> r == p)
            && Wf(r) && HasItems(r)
            && (|| r == p || SameOutside(p, r)
                || (r == TruncatePayload(Minimized(p, ceiling), ceiling)
                    && forall k :: k in PRESERVED_INPUT_STRING_KEYS ==> SameField(p, r, k)))
            && Exhausted(Minimized(p, ceiling), r, ceiling)
  {
    FittedOrLastStage(p, ceiling);
    MinimizedSound(p, ceiling);
    LastStage(p, Minimized(p, ceiling), ceiling);
  }

  lemma LastStage(p: Json, m: Json, ceiling: int)
    requires Wf(m) && HasItems(m) && SameOutside(p, m)
    ensures var r := TruncatePayload(m, ceiling);
            && Wf(r) && HasItems(r) && Exhausted(m, r, ceiling)
            && forall k :: k in PRESERVED_INPUT_STRING_KEYS ==> SameField(p, r, k)
  {
    PayloadTruncationEnds(m, ceiling);
    TruncatePayloadRewrites(m, ceiling);
    LastStageKeepsPreserved(p, m, TruncatePayload(m, ceiling));
  }

  lemma LastStageKeepsPreserved(p: Json, m: Json, r: Json)
    requires SameOutside(p, m)
    requires forall k :: k in PRESERVED_INPUT_STRING_KEYS ==> SameField(m, r, k)
    ensures forall k :: k in PRESERVED_INPUT_STRING_KEYS ==> SameField(p, r, k)
  {
    forall k | k in PRESERVED_INPUT_STRING_KEYS ensures SameField(p, r, k) {
      SameOutsideField(p, m, k);
    }
  }

  lemma SameOutsideField(p: Json, r: Json, k: string)
    requires SameOutside(p, r) && k != "input"
    ensures Get(p, k) == Get(r, k)
  {
    var i, j := Find(p.fields, k), Find(r.fields, k);
    assert i < |p.fields| ==> r.fields[i].key == k;
    assert j < |r.fields| ==> p.fields[j].key == k;
  }

  /**
   Fitting a text input changes nothing but the input, and never succeeds: the answer fits if
   and only if nothing had to be done. A text that is cut comes out at least two over the
   ceiling, any other one 64 longer than it was.
   */
  lemma FittedText(p: Json, ceiling: int)
    requires HasText(p)
    ensures HasText(Fitted(p, ceiling))
    ensures forall k :: k != "input" ==> Get(Fitted(p, ceiling), k) == Get(p, k)
    ensures Fits(p, ceiling) ==> Fitted(p, ceiling) == p
    ensures Fits(Fitted(p, ceiling), ceiling) <==> Fits(p, ceiling)
    ensures !Fits(p, ceiling) ==>
              var s := Get(p, "input").value.s;
              SerializedLength(Fitted(p, ceiling))
              == if CutsText(p, ceiling)
                 then ceiling + 2 + (EscapedLength(s[|s| - TailRoom(p, ceiling)..]) - TailRoom(p, ceiling))
                 else SerializedLength(p) + 64
  {
    TextIsOneStage(p, ceiling);
    StringInputOvershoot(p, ceiling);
    if CutsText(p, ceiling) {
      TailIsNoShorter(Get(p, "input").value.s, TailRoom(p, ceiling));
    }
  }

  lemma TextIsOneStage(p: Json, ceiling: int)
    requires HasText(p)
    ensures Fitted(p, ceiling) == if Fits(p, ceiling) then p else TruncateStringInput(p, ceiling)
  {
  }

  lemma TailIsNoShorter(s: JsString, room: nat)
    requires room <= |s|
    ensures EscapedLength(s[|s| - room..]) >= room
  {
    EscapedLengthBounds(s[|s| - room..]);
  }
}
