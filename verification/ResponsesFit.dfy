/**
 Squeezing a Responses request under a ceiling on its serialized length
 (`fitResponsesPayload` and its stages, services/copilot/create-responses.ts).
 The stages are specified as functions of the payload; the methods run the loops.
 */
module ResponsesFit {
  import opened Common
  import opened JsonValues
  import opened StringPaths
  import opened ResponsesItems
  import opened ResponsesImages

  // ----- payloads: an object whose input is a text or a list of objects -----

  predicate HasText(p: Json) {
    p.Obj? && Get(p, "input").Some? && Get(p, "input").value.Str?
  }

  predicate HasItems(p: Json) {
    p.Obj? && Get(p, "input").Some? && Get(p, "input").value.Arr? && AllObjects(Get(p, "input").value.items)
  }

  ghost predicate ValidPayload(p: Json) {
    Wf(p) && (HasText(p) || HasItems(p))
  }

  function Items(p: Json): seq<Json>
    requires HasItems(p)
  {
    Get(p, "input").value.items
  }

  function WithInput(p: Json, input: Json): Json
    requires p.Obj?
  {
    Set(p, "input", input)
  }

  predicate Fits(p: Json, ceiling: int) {
    SerializedLength(p) <= ceiling
  }

  lemma WithInputReads(p: Json, input: Json)
    requires p.Obj? && Get(p, "input").Some?
    ensures WithInput(p, input).Obj?
    ensures Get(WithInput(p, input), "input") == Some(input)
    ensures forall k :: k != "input" ==> Get(WithInput(p, input), k) == Get(p, k)
    ensures WithInput(p, Get(p, "input").value) == p
    ensures SerializedLength(WithInput(p, input))
            == SerializedLength(p) - SerializedLength(Get(p, "input").value) + SerializedLength(input)
    ensures Wf(p) && Wf(input) ==> Wf(WithInput(p, input))
  {
    forall k ensures Get(WithInput(p, input), k) == if k == "input" then Some(input) else Get(p, k) {
      GetSet(p, "input", input, k);
    }
    SetLength(p, "input", input);
    var i := Find(p.fields, "input");
    assert p.fields[i := Field("input", p.fields[i].value)] == p.fields;
  }

  ghost predicate WfItems(items: seq<Json>) {
    AllObjects(items) && forall i :: 0 <= i < |items| ==> Wf(items[i])
  }

  lemma WithItemsValid(p: Json, items: seq<Json>)
    requires Wf(p) && HasItems(p) && WfItems(items)
    ensures Wf(WithInput(p, Arr(items))) && HasItems(WithInput(p, Arr(items)))
    ensures Items(WithInput(p, Arr(items))) == items
    ensures WfItems(Items(p))
  {
    WithInputReads(p, Arr(items));
    assert Wf(Get(p, "input").value);
  }

  // ----- text input -----

  function TruncateStringInput(p: Json, ceiling: int): Json
    requires p.Obj?
  {
    if !HasText(p) then p
    else
      var overhead := SerializedLength(WithInput(p, Str([])));
      var most := if ceiling - overhead > |Prefix| then ceiling - overhead else |Prefix|;
      WithInput(p, Str(Prefix + SliceTail(Get(p, "input").value.s, most - |Prefix|)))
  }

  /** Units of tail that truncating a text input aims to keep. */
  function TailRoom(p: Json, ceiling: int): int
    requires p.Obj?
  {
    ceiling - SerializedLength(WithInput(p, Str([]))) - |Prefix|
  }

  /** Something is cut off the text: there is room for a tail, and no more than the text has. */
  predicate CutsText(p: Json, ceiling: int)
    requires HasText(p)
  {
    0 < TailRoom(p, ceiling) <= |Get(p, "input").value.s|
  }

  /**
   What truncating a text input comes to, exactly. A text that is cut fills the room for its
   tail, so the body overshoots the ceiling by the prefix's two escapes and those of the tail;
   any other text is kept whole and the body grows by 64.
   */
  lemma StringInputOvershoot(p: Json, ceiling: int)
    requires HasText(p)
    ensures var r := TruncateStringInput(p, ceiling);
            var s := Get(p, "input").value.s;
            && HasText(r)
            && (forall k :: k != "input" ==> Get(r, k) == Get(p, k))
            && (!CutsText(p, ceiling) ==>
                  && Get(r, "input") == Some(Str(Prefix + s))
                  && SerializedLength(r) == SerializedLength(p) + 64)
            && (CutsText(p, ceiling) ==>
                  var tail := s[|s| - TailRoom(p, ceiling)..];
                  && Get(r, "input") == Some(Str(Prefix + tail))
                  && SerializedLength(r) == ceiling + 2 + (EscapedLength(tail) - |tail|))
  {
    var s := Get(p, "input").value.s;
    var room := TailRoom(p, ceiling);
    var tail := SliceTail(s, if room > 0 then room else 0);
    TextLength(p, []);
    TextLength(p, Prefix + tail);
    PrefixLength(tail);
    PrefixLength([]);
    WithInputReads(p, Str(Prefix + tail));
  }

  lemma TextLength(p: Json, text: JsString)
    requires HasText(p)
    ensures HasText(WithInput(p, Str(text)))
    ensures forall k :: k != "input" ==> Get(WithInput(p, Str(text)), k) == Get(p, k)
    ensures SerializedLength(WithInput(p, Str(text)))
            == SerializedLength(p) - EscapedLength(Get(p, "input").value.s) + EscapedLength(text)
  {
    WithInputReads(p, Str(text));
  }

  // ----- stage 1: oldest images first -----

  function AfterStrips(p: Json, n: nat): Json
    requires HasItems(p) && n <= |LocationsFrom(Items(p), 0)|
  {
    LocationsExact(Items(p), 0);
    WithInput(p, Arr(StripFirst(Items(p), LocationsFrom(Items(p), 0), n)))
  }

  /** The body fits once the first `n` images are placeholders. */
  predicate FitsStripped(p: Json, ceiling: int, n: nat)
    requires HasItems(p) && n <= |LocationsFrom(Items(p), 0)|
  {
    Fits(AfterStrips(p, n), ceiling)
  }

  /** How many images are stripped, counting on from `n`. */
  function StripCount(p: Json, ceiling: int, n: nat): (m: nat)
    requires HasItems(p) && n <= |LocationsFrom(Items(p), 0)|
    ensures n <= m <= |LocationsFrom(Items(p), 0)|
    ensures m < |LocationsFrom(Items(p), 0)| ==> FitsStripped(p, ceiling, m)
    ensures forall k :: n <= k < m ==> !FitsStripped(p, ceiling, k)
    decreases |LocationsFrom(Items(p), 0)| - n
  {
    if n == |LocationsFrom(Items(p), 0)| || FitsStripped(p, ceiling, n) then n
    else StripCount(p, ceiling, n + 1)
  }

  function StripImages(p: Json, ceiling: int): Json
    requires HasItems(p)
  {
    AfterStrips(p, StripCount(p, ceiling, 0))
  }

  /** `replaceImageWithPlaceholder` on a payload. */
  function ReplaceInPayload(p: Json, at: ImageLocation): Json
    requires HasItems(p) && Holds(Items(p), at)
  {
    WithInput(p, Arr(ReplaceImage(Items(p), at)))
  }

  lemma AfterStripsReads(p: Json, n: nat)
    requires ValidPayload(p) && HasItems(p) && n <= |LocationsFrom(Items(p), 0)|
    ensures (forall at <- LocationsFrom(Items(p), 0) :: Holds(Items(p), at))
    ensures Wf(AfterStrips(p, n)) && HasItems(AfterStrips(p, n))
    ensures Items(AfterStrips(p, n)) == StripFirst(Items(p), LocationsFrom(Items(p), 0), n)
  {
    var ls := LocationsFrom(Items(p), 0);
    LocationsExact(Items(p), 0);
    assert Wf(Get(p, "input").value);
    StripFirstWf(Items(p), ls, n);
    WithItemsValid(p, StripFirst(Items(p), ls, n));
  }

  lemma AfterStripsNext(p: Json, n: nat)
    requires ValidPayload(p) && HasItems(p) && n < |LocationsFrom(Items(p), 0)|
    ensures HasItems(AfterStrips(p, n)) && Holds(Items(AfterStrips(p, n)), LocationsFrom(Items(p), 0)[n])
    ensures AfterStrips(p, n + 1) == ReplaceInPayload(AfterStrips(p, n), LocationsFrom(Items(p), 0)[n])
  {
    var ls := LocationsFrom(Items(p), 0);
    AfterStripsReads(p, n);
    assert ls[n] in ls;
    SetSet(p, "input", Arr(StripFirst(Items(p), ls, n)), Arr(StripFirst(Items(p), ls, n + 1)));
  }

  lemma AfterNoStrips(p: Json)
    requires HasItems(p)
    ensures AfterStrips(p, 0) == p
  {
    WithInputReads(p, Arr(Items(p)));
  }

  lemma StripCountStep(p: Json, ceiling: int, n: nat)
    requires HasItems(p) && n <= |LocationsFrom(Items(p), 0)|
    ensures StripCount(p, ceiling, n)
            == if n == |LocationsFrom(Items(p), 0)| || Fits(AfterStrips(p, n), ceiling) then n
               else StripCount(p, ceiling, n + 1)
  {
  }

  method RunStripImages(payload: Json, ceiling: int) returns (current: Json)
    requires ValidPayload(payload) && HasItems(payload) && !Fits(payload, ceiling)
    ensures current == StripImages(payload, ceiling)
  {
    var locations := CollectImageLocations(Items(payload));
    current := payload;
    AfterNoStrips(payload);
    ghost var n := StripCount(payload, ceiling, 0);
    var strippedCount := 0;
    while strippedCount < |locations|
      invariant strippedCount <= |locations|
      invariant current == AfterStrips(payload, strippedCount)
      invariant n == StripCount(payload, ceiling, strippedCount)
      invariant !Fits(current, ceiling)
    {
      StripCountStep(payload, ceiling, strippedCount);
      AfterStripsNext(payload, strippedCount);
      current := ReplaceInPayload(current, locations[strippedCount]);
      strippedCount := strippedCount + 1;
      if Fits(current, ceiling) {
        break;
      }
    }
    StripCountStep(payload, ceiling, strippedCount);
  }

  /** The stripped images are a shortest prefix, in document order, whose removal fits, or all of them. */
  lemma StripIsMinimal(p: Json, ceiling: int)
    requires ValidPayload(p) && HasItems(p)
    ensures var ls := LocationsFrom(Items(p), 0);
            var n := StripCount(p, ceiling, 0);
            var r := StripImages(p, ceiling);
            && n <= |ls| && InDocumentOrder(ls)
            && (forall at :: at in ls <==> Holds(Items(p), at) && IsImage(PartAt(Items(p), at)))
            && Wf(r) && HasItems(r)
            && Replaced(Items(p), Items(r), Members(ls[..n]))
            && (Fits(r, ceiling) || n == |ls|)
            && (forall k :: 0 <= k < n ==> !FitsStripped(p, ceiling, k))
            && LocationsFrom(Items(r), 0) == ls[n..]
  {
    var ls := LocationsFrom(Items(p), 0);
    var n := StripCount(p, ceiling, 0);
    LocationsExact(Items(p), 0);
    StripFirstExact(Items(p), ls, n);
    StrippedLocationsRemain(Items(p), n);
    AfterStripsReads(p, n);
  }

  lemma ReplaceImageWf(items: seq<Json>, at: ImageLocation)
    requires WfItems(items) && Holds(items, at)
    ensures WfItems(ReplaceImage(items, at))
  {
    PlaceholderIsNoImage();
    var item := items[at.inputIndex];
    assert item in items;
    assert Wf(Get(item, "content").value);
    var parts := Arr(Parts(item)[at.contentIndex := ImagePlaceholder]);
    assert Wf(parts);
    SetWf(item, "content", parts);
    var after := ReplaceImage(items, at);
    forall x | x in after ensures x.Obj? {
      var i :| 0 <= i < |after| && after[i] == x;
      assert items[i] in items;
    }
  }

  lemma {:induction false} StripFirstWf(items: seq<Json>, ls: seq<ImageLocation>, n: nat)
    requires WfItems(items) && n <= |ls| && forall at <- ls :: Holds(items, at)
    ensures WfItems(StripFirst(items, ls, n))
  {
    if n > 0 {
      StripFirstWf(items, ls, n - 1);
      assert ls[n - 1] in ls;
      ReplaceImageWf(StripFirst(items, ls, n - 1), ls[n - 1]);
    }
  }

  lemma SetWf(v: Json, key: string, c: Json)
    requires v.Obj? && Wf(v) && Wf(c) && Get(v, key).Some?
    ensures Wf(Set(v, key, c))
  {
  }

  // ----- stage 2: oldest items, then outputs left without their call -----

  function Most(a: int, b: int): int { if a > b then a else b }

  function AfterDrops(p: Json, k: nat): Json
    requires HasItems(p)
  {
    WithInput(p, Arr(DropFirst(Items(p), k)))
  }

  function DropCount(p: Json, ceiling: int, k: nat): (m: nat)
    requires HasItems(p) && k <= Most(0, DroppableCount(Items(p)) - 2)
    ensures k <= m <= Most(0, DroppableCount(Items(p)) - 2)
    ensures m < Most(0, DroppableCount(Items(p)) - 2) ==> Fits(AfterDrops(p, m), ceiling)
    ensures forall j :: k <= j < m ==> !Fits(AfterDrops(p, j), ceiling)
    decreases DroppableCount(Items(p)) - k
  {
    if k + 2 >= DroppableCount(Items(p)) || Fits(AfterDrops(p, k), ceiling) then k else DropCount(p, ceiling, k + 1)
  }

  function DropOldInputItems(p: Json, ceiling: int): Json
    requires HasItems(p)
  {
    AfterDrops(p, DropCount(p, ceiling, 0))
  }

  method CountRecentDroppableItems(input: seq<Json>, index: nat) returns (count: nat)
    requires index <= |input|
    ensures count == DroppableCount(input[index..])
  {
    count := 0;
    for i := index to |input|
      invariant count + DroppableCount(input[i..]) == DroppableCount(input[index..])
    {
      assert input[i..][0] == input[i] && input[i..][1..] == input[i + 1..];
      if !IsSystem(input[i]) {
        count := count + 1;
      }
    }
    assert input[|input|..] == [];
  }

  lemma DropFirstTail(items: seq<Json>, index: nat, k: nat)
    requires index <= |items| && k <= DroppableCount(items[..index])
    ensures DropFirst(items, k)[index..] == items[index..]
  {
    forall i | index <= i < |items| ensures DropFirst(items, k)[i] == items[i] {
      DroppableMonotone(items, index, i);
    }
  }

  /** The loop has not touched the item it looks at, nor any after it. */
  lemma NotYetDropped(items: seq<Json>, index: nat, k: nat)
    requires index < |items| && k <= DroppableCount(items[..index])
    ensures DropFirst(items, k)[index] == items[index]
    ensures DropFirst(items, k)[index..] == items[index..]
    ensures DroppableCount(items[..index + 1]) == DroppableCount(items[..index]) + (if IsSystem(items[index]) then 0 else 1)
    ensures DroppableCount(items) == DroppableCount(items[..index]) + DroppableCount(items[index..])
  {
    DroppableSplit(items, index);
    DropFirstTail(items, index, k);
    var r := DropFirst(items, k);
    assert r[index] == r[index..][0] == items[index..][0];
  }

  lemma DropNone(items: seq<Json>)
    ensures DropFirst(items, 0) == items
  {
  }

  lemma DropCountStep(p: Json, ceiling: int, k: nat)
    requires HasItems(p) && k <= Most(0, DroppableCount(Items(p)) - 2)
    ensures DropCount(p, ceiling, k)
            == if k + 2 >= DroppableCount(Items(p)) || Fits(AfterDrops(p, k), ceiling) then k else DropCount(p, ceiling, k + 1)
  {
  }

  /** Where the loop stands: `count` items were dropped before `index`, up to the limit, and none of them too many. */
  ghost predicate Dropping(p: Json, ceiling: int, input: seq<Json>, index: nat, count: nat, bodyLength: int)
    requires HasItems(p)
  {
    var items := Items(p);
    var limit := Most(0, DroppableCount(items) - 2);
    && index <= |input| == |items|
    && input == DropFirst(items, count)
    && bodyLength == SerializedLength(AfterDrops(p, count))
    && count <= limit
    && (count == DroppableCount(items[..index]) || (count == limit && count <= DroppableCount(items[..index])))
    && DropCount(p, ceiling, 0) == DropCount(p, ceiling, count)
  }

  lemma DroppingStarts(p: Json, ceiling: int)
    requires HasItems(p)
    ensures Dropping(p, ceiling, Items(p), 0, 0, SerializedLength(WithInput(p, Arr(Items(p)))))
  {
    DropNone(Items(p));
  }

  /** The item at `index` is still the original one, and `count` says how many droppable ones came before it. */
  lemma DroppingReads(p: Json, ceiling: int, input: seq<Json>, index: nat, count: nat, bodyLength: int)
    requires HasItems(p) && Dropping(p, ceiling, input, index, count, bodyLength) && index < |input|
    ensures input[index] == Items(p)[index] && DroppableCount(input[index..]) == DroppableCount(Items(p)[index..])
    ensures DroppableCount(Items(p)[..index + 1])
            == DroppableCount(Items(p)[..index]) + (if IsSystem(input[index]) then 0 else 1)
    ensures DroppableCount(Items(p)) == DroppableCount(Items(p)[..index]) + DroppableCount(input[index..])
  {
    NotYetDropped(Items(p), index, count);
  }

  lemma DroppingSkips(p: Json, ceiling: int, input: seq<Json>, index: nat, count: nat, bodyLength: int)
    requires HasItems(p) && Dropping(p, ceiling, input, index, count, bodyLength) && index < |input|
    requires IsSystem(input[index]) || DroppableCount(input[index..]) <= 2
    ensures Dropping(p, ceiling, input, index + 1, count, bodyLength)
  {
    DroppingReads(p, ceiling, input, index, count, bodyLength);
  }

  lemma DroppingDrops(p: Json, ceiling: int, input: seq<Json>, index: nat, count: nat, bodyLength: int)
    requires HasItems(p) && Dropping(p, ceiling, input, index, count, bodyLength) && index < |input|
    requires !IsSystem(input[index]) && DroppableCount(input[index..]) > 2 && bodyLength > ceiling
    ensures var next := input[index := DroppedItem(input[index])];
            Dropping(p, ceiling, next, index + 1, count + 1, SerializedLength(WithInput(p, Arr(next))))
  {
    DroppingReads(p, ceiling, input, index, count, bodyLength);
    DropOneMore(Items(p), index);
    DropCountStep(p, ceiling, count);
  }

  lemma DroppingEnds(p: Json, ceiling: int, input: seq<Json>, index: nat, count: nat, bodyLength: int)
    requires HasItems(p) && Dropping(p, ceiling, input, index, count, bodyLength)
    requires index == |input| || bodyLength <= ceiling
    ensures WithInput(p, Arr(input)) == DropOldInputItems(p, ceiling) && count == DropCount(p, ceiling, 0)
  {
    assert Items(p)[..|Items(p)|] == Items(p);
    DropCountStep(p, ceiling, count);
  }

  method RunDropOldInputItems(payload: Json, ceiling: int) returns (r: Json, count: nat)
    requires ValidPayload(payload) && HasItems(payload)
    ensures r == DropOldInputItems(payload, ceiling)
    ensures count == DropCount(payload, ceiling, 0)
  {
    var input := Items(payload);
    var bodyLength := SerializedLength(WithInput(payload, Arr(input)));
    count := 0;
    DroppingStarts(payload, ceiling);
    var index := 0;
    while index < |input| && bodyLength > ceiling
      invariant index <= |input|
      invariant Dropping(payload, ceiling, input, index, count, bodyLength)
    {
      var item := input[index];
      if IsSystem(item) {
        DroppingSkips(payload, ceiling, input, index, count, bodyLength);
        index := index + 1;
        continue;
      }
      var recent := CountRecentDroppableItems(input, index);
      if recent <= 2 {
        DroppingSkips(payload, ceiling, input, index, count, bodyLength);
        index := index + 1;
        continue;
      }
      DroppingDrops(payload, ceiling, input, index, count, bodyLength);
      input := input[index := DroppedItem(item)];
      count := count + 1;
      bodyLength := SerializedLength(WithInput(payload, Arr(input)));
      index := index + 1;
    }
    DroppingEnds(payload, ceiling, input, index, count, bodyLength);
    r := WithInput(payload, Arr(input));
  }

  function DropOrphanedToolCallOutputs(p: Json): Json
    requires HasItems(p)
  {
    WithInput(p, Arr(DropOrphans(Items(p))))
  }

  /**
   Dropping replaces the fewest oldest droppable items that make the body fit, or all but
   the last two; items keep their number, and protected items their places.
   */
  lemma DropIsMinimal(p: Json, ceiling: int)
    requires ValidPayload(p) && HasItems(p)
    ensures var k := DropCount(p, ceiling, 0);
            var r := DropOldInputItems(p, ceiling);
            && Wf(r) && HasItems(r) && Items(r) == DropFirst(Items(p), k)
            && (Fits(r, ceiling) || k == Most(0, DroppableCount(Items(p)) - 2))
            && (forall j :: 0 <= j < k ==> !Fits(AfterDrops(p, j), ceiling))
            && Protected(Items(r)) == Protected(Items(p))
            && (forall i :: 0 <= i < |Items(p)| && DroppableCount(Items(p)[i..]) <= 2 ==> Items(r)[i] == Items(p)[i])
  {
    var items := Items(p);
    var k := DropCount(p, ceiling, 0);
    assert Wf(Get(p, "input").value);
    forall i | 0 <= i < |items| ensures Wf(DropFirst(items, k)[i]) && DropFirst(items, k)[i].Obj? {
      DroppedIsPlain(items[i]);
      assert items[i] in items;
    }
    WithItemsValid(p, DropFirst(items, k));
    DropFirstKeepsProtected(items, k);
    forall i | 0 <= i < |items| && DroppableCount(items[i..]) <= 2 ensures DropFirst(items, k)[i] == items[i] {
      if k + 2 <= DroppableCount(items) {
        LastTwoSurvive(items, k, i);
      }
    }
  }

  // ----- stage 3: the largest string of the unprotected items -----

  datatype StringLocation = StringLocation(inputIndex: nat, length: nat, path: Path)

  function LargerLocation(largest: Option<StringLocation>, i: nat, c: Option<Candidate>): Option<StringLocation> {
    if c.Some? && (largest.None? || c.value.length > largest.value.length)
    then Some(StringLocation(i, c.value.length, c.value.path)) else largest
  }

  /** The largest string among the items before position `n`. */
  function LargestInput(items: seq<Json>, n: nat): Option<StringLocation>
    requires n <= |items|
  {
    if n == 0 then None
    else if IsSystem(items[n - 1]) then LargestInput(items, n - 1)
    else LargerLocation(LargestInput(items, n - 1), n - 1, FindLargestString(items[n - 1], []))
  }

  method FindLargestInputString(items: seq<Json>) returns (largest: Option<StringLocation>)
    ensures largest == LargestInput(items, |items|)
    ensures largest.Some? ==> largest.value.inputIndex < |items|
  {
    largest := None;
    for i := 0 to |items|
      invariant largest == LargestInput(items, i)
      invariant largest.Some? ==> largest.value.inputIndex < i
    {
      if IsSystem(items[i]) {
        continue;
      }
      var candidate := FindLargestString(items[i], []);
      if candidate.Some? && (largest.None? || candidate.value.length > largest.value.length) {
        largest := Some(StringLocation(i, candidate.value.length, candidate.value.path));
      }
    }
  }

  /** `l` is the first of the longest strings that may be cut in the unprotected items before position `n`. */
  ghost predicate LargestBelow(items: seq<Json>, n: nat, l: Option<StringLocation>)
    requires n <= |items|
  {
    && (l.Some? ==>
          && l.value.inputIndex < n && !IsSystem(items[l.value.inputIndex])
          && IsBest(items[l.value.inputIndex], [], l.value.path, l.value.length))
    && (forall i, q :: 0 <= i < n && !IsSystem(items[i]) && Eligible(items[i], [], q)
          ==> l.Some? && LeafLength(items[i], q) <= l.value.length
              && (i < l.value.inputIndex ==> LeafLength(items[i], q) < l.value.length))
  }

  lemma BestAlone(item: Json)
    requires Wf(item)
    ensures var c := FindLargestString(item, []);
            if c.Some? then IsBest(item, [], c.value.path, c.value.length) else forall q :: !Eligible(item, [], q)
  {
    SearchFindsFirstLongest(item, []);
    var c := FindLargestString(item, []);
    if c.Some? {
      assert c.value.path[0..] == c.value.path;
    }
  }

  lemma {:induction false} LargestInputIsLargest(items: seq<Json>, n: nat)
    requires n <= |items| && WfItems(items)
    ensures LargestBelow(items, n, LargestInput(items, n))
  {
    if n > 0 {
      LargestInputIsLargest(items, n - 1);
      LargestNext(items, n - 1, LargestInput(items, n - 1));
    }
  }

  lemma LargestNext(items: seq<Json>, n: nat, l: Option<StringLocation>)
    requires n < |items| && Wf(items[n]) && LargestBelow(items, n, l)
    ensures LargestBelow(items, n + 1, if IsSystem(items[n]) then l else LargerLocation(l, n, FindLargestString(items[n], [])))
  {
    if IsSystem(items[n]) {
      LargestSkip(items, n, l);
    } else {
      BestAlone(items[n]);
      LargestStep(items, n, l, FindLargestString(items[n], []));
    }
  }

  lemma LargestSkip(items: seq<Json>, n: nat, l: Option<StringLocation>)
    requires n < |items| && IsSystem(items[n]) && LargestBelow(items, n, l)
    ensures LargestBelow(items, n + 1, l)
  {
  }

  lemma LargestStep(items: seq<Json>, n: nat, l: Option<StringLocation>, c: Option<Candidate>)
    requires n < |items| && !IsSystem(items[n]) && LargestBelow(items, n, l)
    requires if c.Some? then IsBest(items[n], [], c.value.path, c.value.length) else forall q :: !Eligible(items[n], [], q)
    ensures LargestBelow(items, n + 1, LargerLocation(l, n, c))
  {
  }

  /** Units kept by a cut of a string of the given length; 0 makes the cut keep everything. */
  function KeepLength(length: nat, excess: int): nat {
    Most(0, length - excess - |Prefix| - 10_000)
  }

  function CutInput(p: Json, at: StringLocation, excess: int): Json
    requires HasItems(p) && at.inputIndex < |Items(p)|
  {
    var items := Items(p);
    WithInput(p, Arr(items[at.inputIndex := TruncateAt(items[at.inputIndex], at.path, KeepLength(at.length, excess))]))
  }

  /** A cut that keeps nothing keeps everything, behind the prefix. */
  lemma KeepNothingGrows(s: JsString)
    ensures EscapedLength(Prefix + SliceTail(s, 0)) == EscapedLength(s) + 64
  {
    PrefixLength(s);
  }

  /** A cut that keeps some units saves the others, up to a split pair and the prefix. */
  lemma KeepSomeSaves(s: JsString, keep: nat)
    requires 0 < keep <= |s|
    ensures EscapedLength(Prefix + SliceTail(s, keep)) <= EscapedLength(s) - (|s| - keep) + 74
  {
    var head, tail := s[..|s| - keep], s[|s| - keep..];
    assert s == head + tail && tail == SliceTail(s, keep);
    EscapedLengthSplit(head, tail);
    EscapedLengthBounds(head);
    PrefixLength(tail);
  }

  /** What a cut does to the payload: only the one string's text changes its length. */
  lemma CutInputShape(p: Json, at: StringLocation, excess: int)
    requires ValidPayload(p) && HasItems(p) && at.inputIndex < |Items(p)|
    requires Eligible(Items(p)[at.inputIndex], [], at.path)
    ensures var r := CutInput(p, at, excess);
            var s := At(Items(p)[at.inputIndex], at.path).value.s;
            && Wf(r) && HasItems(r)
            && SerializedLength(r) == SerializedLength(p) - EscapedLength(s)
                                      + EscapedLength(Prefix + SliceTail(s, KeepLength(at.length, excess)))
  {
    var items := Items(p);
    var item := items[at.inputIndex];
    var keep := KeepLength(at.length, excess);
    var cut := TruncateAt(item, at.path, keep);
    assert Wf(Get(p, "input").value) && item in items;
    TruncateKeepsWf(item, at.path, keep);
    TruncateLength(item, at.path, keep);
    WithItemsValid(p, items[at.inputIndex := cut]);
    WithInputReads(p, Arr(items[at.inputIndex := cut]));
    ItemsLengthUpdate(items, at.inputIndex, cut);
  }

  lemma CutInputLength(p: Json, at: StringLocation, excess: int)
    requires ValidPayload(p) && HasItems(p) && at.inputIndex < |Items(p)| && excess > 0
    requires Eligible(Items(p)[at.inputIndex], [], at.path)
    requires LeafLength(Items(p)[at.inputIndex], at.path) == at.length
    ensures var r := CutInput(p, at, excess);
            && |Prefix| == 62 && Wf(r) && HasItems(r)
            && (at.length > excess + |Prefix| + 10_000 ==> SerializedLength(r) <= SerializedLength(p) - excess - 9_988)
            && (at.length <= excess + |Prefix| + 10_000 ==> SerializedLength(r) == SerializedLength(p) + 64)
  {
    CutInputShape(p, at, excess);
    PrefixLength([]);
    var keep := KeepLength(at.length, excess);
    var s := At(Items(p)[at.inputIndex], at.path).value.s;
    if keep > 0 { KeepSomeSaves(s, keep); } else { KeepNothingGrows(s); }
  }

  function TruncateInputContent(p: Json, ceiling: int): Json
    requires HasItems(p)
  {
    var l := LargestInput(Items(p), |Items(p)|);
    if Fits(p, ceiling) || l.None? || l.value.inputIndex >= |Items(p)| then p
    else CutInput(p, l.value, SerializedLength(p) - ceiling)
  }

  lemma LargestInPayload(p: Json)
    requires ValidPayload(p) && HasItems(p)
    ensures var l := LargestInput(Items(p), |Items(p)|);
            l.Some? ==>
              && l.value.inputIndex < |Items(p)|
              && Eligible(Items(p)[l.value.inputIndex], [], l.value.path)
              && LeafLength(Items(p)[l.value.inputIndex], l.value.path) == l.value.length
  {
    assert Wf(Get(p, "input").value);
    LargestInputIsLargest(Items(p), |Items(p)|);
  }

  lemma OneCut(p: Json, ceiling: int)
    requires ValidPayload(p) && HasItems(p) && !Fits(p, ceiling)
    requires LargestInput(Items(p), |Items(p)|).Some?
    ensures var l := LargestInput(Items(p), |Items(p)|).value;
            && l.inputIndex < |Items(p)|
            && Eligible(Items(p)[l.inputIndex], [], l.path)
            && LeafLength(Items(p)[l.inputIndex], l.path) == l.length
            && TruncateInputContent(p, ceiling) == CutInput(p, l, SerializedLength(p) - ceiling)
  {
    LargestInPayload(p);
  }

  /**
   The one-cut bound, exactly: an oversized body with a string to cut fits after the stage
   if and only if that string is longer than the excess, the prefix and 10,000 together.
   Then it fits with 9,988 characters to spare; otherwise it has grown by 64.
   */
  lemma OneCutFitsExactly(p: Json, ceiling: int)
    requires ValidPayload(p) && HasItems(p) && !Fits(p, ceiling)
    requires LargestInput(Items(p), |Items(p)|).Some?
    ensures var l := LargestInput(Items(p), |Items(p)|).value;
            var r := TruncateInputContent(p, ceiling);
            var enough := l.length > SerializedLength(p) - ceiling + |Prefix| + 10_000;
            && |Prefix| == 62
            && l.inputIndex < |Items(p)| && r == CutInput(p, l, SerializedLength(p) - ceiling)
            && Wf(r) && HasItems(r)
            && (Fits(r, ceiling) <==> enough)
            && (enough ==> SerializedLength(r) <= ceiling - 9_988)
            && (!enough ==> SerializedLength(r) == SerializedLength(p) + 64)
  {
    OneCut(p, ceiling);
    CutFits(p, LargestInput(Items(p), |Items(p)|).value, ceiling);
  }

  lemma CutFits(p: Json, at: StringLocation, ceiling: int)
    requires ValidPayload(p) && HasItems(p) && at.inputIndex < |Items(p)| && !Fits(p, ceiling)
    requires Eligible(Items(p)[at.inputIndex], [], at.path)
    requires LeafLength(Items(p)[at.inputIndex], at.path) == at.length
    ensures var r := CutInput(p, at, SerializedLength(p) - ceiling);
            var enough := at.length > SerializedLength(p) - ceiling + |Prefix| + 10_000;
            && |Prefix| == 62 && Wf(r) && HasItems(r)
            && (Fits(r, ceiling) <==> enough)
            && (enough ==> SerializedLength(r) <= ceiling - 9_988)
            && (!enough ==> SerializedLength(r) == SerializedLength(p) + 64)
  {
    CutInputLength(p, at, SerializedLength(p) - ceiling);
  }

  lemma InputContentValid(p: Json, ceiling: int)
    requires ValidPayload(p) && HasItems(p)
    ensures Wf(TruncateInputContent(p, ceiling)) && HasItems(TruncateInputContent(p, ceiling))
  {
    if !Fits(p, ceiling) && LargestInput(Items(p), |Items(p)|).Some? {
      OneCutFitsExactly(p, ceiling);
    }
  }

  lemma NothingToCut(p: Json, ceiling: int)
    requires HasItems(p) && (Fits(p, ceiling) || LargestInput(Items(p), |Items(p)|).None?)
    ensures TruncateInputContent(p, ceiling) == p
  {
  }

  lemma CutOnce(p: Json, ceiling: int, at: StringLocation, next: Json)
    requires ValidPayload(p) && HasItems(p) && !Fits(p, ceiling)
    requires LargestInput(Items(p), |Items(p)|) == Some(at) && at.inputIndex < |Items(p)|
    requires next == CutInput(p, at, SerializedLength(p) - ceiling)
    ensures next == TruncateInputContent(p, ceiling)
    ensures SerializedLength(next) <= ceiling || SerializedLength(next) >= SerializedLength(p)
  {
    OneCutFitsExactly(p, ceiling);
  }

  /**
   `truncateLargestInputContent`. The loop never goes round twice: one cut either fits
   or, keeping everything, grows the body, and both end the loop.
   */
  method RunTruncateInputContent(payload: Json, ceiling: int) returns (current: Json)
    requires ValidPayload(payload) && HasItems(payload)
    ensures current == TruncateInputContent(payload, ceiling)
  {
    current := payload;
    var bodyLength := SerializedLength(current);
    ghost var result := TruncateInputContent(payload, ceiling);
    if bodyLength <= ceiling { NothingToCut(payload, ceiling); }
    while bodyLength > ceiling
      invariant bodyLength == SerializedLength(current)
      invariant bodyLength > ceiling ==> current == payload
      invariant bodyLength <= ceiling ==> current == result
      decreases bodyLength
    {
      var target := FindLargestInputString(Items(current));
      if target.None? {
        NothingToCut(payload, ceiling);
        return;
      }
      var next := CutInput(current, target.value, bodyLength - ceiling);
      CutOnce(payload, ceiling, target.value, next);
      current := next;
      var nextBodyLength := SerializedLength(current);
      if nextBodyLength >= bodyLength {
        return;
      }
      bodyLength := nextBodyLength;
    }
  }

  // ----- stage 4: protected items and one placeholder -----

  function Latest(items: seq<Json>): Option<Json> {
    if items == [] then None
    else if !IsSystem(items[|items| - 1]) then Some(items[|items| - 1])
    else Latest(items[..|items| - 1])
  }

  /** A missing latest item gives a user turn. */
  function MinimizeInput(p: Json): Json
    requires HasItems(p)
  {
    var latest := Latest(Items(p));
    WithInput(p, Arr(Protected(Items(p)) + [DroppedItem(if latest.Some? then latest.value else Null)]))
  }

  // ----- stage 5: the largest string anywhere -----

  function CutPayload(p: Json, path: Path, ceiling: int): Json
    requires !Fits(p, ceiling)
  {
    TruncateAt(p, path, SerializedLength(p) - ceiling)
  }

  function TruncatePayload(p: Json, ceiling: int): Json
    decreases SerializedLength(p)
  {
    var target := FindLargestString(p, []);
    if Fits(p, ceiling) || target.None? then p
    else
      var next := CutPayload(p, target.value.path, ceiling);
      if SerializedLength(next) >= SerializedLength(p) then next else TruncatePayload(next, ceiling)
  }

  method RunTruncatePayload(payload: Json, ceiling: int) returns (current: Json)
    ensures current == TruncatePayload(payload, ceiling)
  {
    current := payload;
    var bodyLength := SerializedLength(current);
    ghost var result := TruncatePayload(payload, ceiling);
    while bodyLength > ceiling
      invariant bodyLength == SerializedLength(current)
      invariant TruncatePayload(current, ceiling) == result
      decreases bodyLength
    {
      var target := FindLargestString(current, []);
      if target.None? {
        return;
      }
      current := TruncateAt(current, target.value.path, bodyLength - ceiling);
      var nextBodyLength := SerializedLength(current);
      if nextBodyLength >= bodyLength {
        return;
      }
      bodyLength := nextBodyLength;
    }
  }

  /** `last` comes from `p` by cuts each of which made an oversized body shorter. */
  ghost predicate CutsTo(p: Json, last: Json, ceiling: int)
    decreases SerializedLength(p)
  {
    p == last ||
    (&& !Fits(p, ceiling) && FindLargestString(p, []).Some?
     && var next := CutPayload(p, FindLargestString(p, []).value.path, ceiling);
        SerializedLength(next) < SerializedLength(p) && CutsTo(next, last, ceiling))
  }

  /** `r` fits, or has no string to cut, or is what the last of the cuts starting at `p` failed to shrink. */
  ghost predicate Exhausted(p: Json, r: Json, ceiling: int) {
    || Fits(r, ceiling)
    || FindLargestString(r, []).None?
    || exists last :: CutsTo(p, last, ceiling) && FailedCut(last, r, ceiling)
  }

  /** The last stage ends only when the body fits, nothing can be cut, or the last cut did not shrink it. */
  lemma {:induction false} PayloadTruncationEnds(p: Json, ceiling: int)
    ensures Exhausted(p, TruncatePayload(p, ceiling), ceiling)
    decreases SerializedLength(p)
  {
    var target := FindLargestString(p, []);
    if !Fits(p, ceiling) && target.Some? {
      var next := CutPayload(p, target.value.path, ceiling);
      if SerializedLength(next) >= SerializedLength(p) {
        assert CutsTo(p, p, ceiling) && FailedCut(p, next, ceiling);
      } else {
        PayloadTruncationEnds(next, ceiling);
        var r := TruncatePayload(p, ceiling);
        if !Fits(r, ceiling) && FindLargestString(r, []).Some? {
          var last :| CutsTo(next, last, ceiling) && FailedCut(last, r, ceiling);
          assert CutsTo(p, last, ceiling);
        }
      }
    }
  }

  ghost predicate FailedCut(last: Json, r: Json, ceiling: int) {
    && !Fits(last, ceiling) && FindLargestString(last, []).Some?
    && r == CutPayload(last, FindLargestString(last, []).value.path, ceiling)
    && SerializedLength(r) >= SerializedLength(last)
  }

  // ----- when a cut of the last stage helps -----

  /** The string that the last stage cuts next. */
  function TargetString(p: Json): JsString {
    var target := FindLargestString(p, []);
    if target.Some? && At(p, target.value.path).Some? && At(p, target.value.path).value.Str?
    then At(p, target.value.path).value.s else []
  }

  /** The end of that string which the cut keeps: as many units as the body is too long. */
  function KeptTail(p: Json, ceiling: int): JsString
    requires !Fits(p, ceiling)
  {
    SliceTail(TargetString(p), SerializedLength(p) - ceiling)
  }

  lemma TargetIsString(p: Json)
    requires Wf(p) && FindLargestString(p, []).Some?
    ensures At(p, FindLargestString(p, []).value.path) == Some(Str(TargetString(p)))
  {
    BestAlone(p);
  }

  lemma PayloadCutWf(p: Json, ceiling: int)
    requires Wf(p) && !Fits(p, ceiling) && FindLargestString(p, []).Some?
    ensures Wf(CutPayload(p, FindLargestString(p, []).value.path, ceiling))
  {
    TruncateKeepsWf(p, FindLargestString(p, []).value.path, SerializedLength(p) - ceiling);
  }

  lemma PayloadCutLength(p: Json, ceiling: int)
    requires Wf(p) && !Fits(p, ceiling) && FindLargestString(p, []).Some?
    ensures SerializedLength(CutPayload(p, FindLargestString(p, []).value.path, ceiling))
            == SerializedLength(p) - EscapedLength(TargetString(p)) + 64 + EscapedLength(KeptTail(p, ceiling))
  {
    TargetIsString(p);
    CutStringLength(p, FindLargestString(p, []).value.path, TargetString(p), SerializedLength(p) - ceiling);
  }

  lemma CutStringLength(v: Json, path: Path, s: JsString, keep: nat)
    requires At(v, path) == Some(Str(s))
    ensures SerializedLength(TruncateAt(v, path, keep))
            == SerializedLength(v) - EscapedLength(s) + 64 + EscapedLength(SliceTail(s, keep))
  {
    TruncateLength(v, path, keep);
    PrefixLength(SliceTail(s, keep));
  }

  /** The next cut of the last stage brings the body under the ceiling. */
  predicate CutSuffices(p: Json, ceiling: int) {
    && !Fits(p, ceiling) && FindLargestString(p, []).Some?
    && EscapedLength(TargetString(p)) >= EscapedLength(KeptTail(p, ceiling)) + (SerializedLength(p) - ceiling) + 64
  }

  /**
   What one cut of the last stage does, exactly. It fits if and only if the text that goes
   is at least the excess and the prefix; it goes on if and only if that is more than the
   prefix but not enough; and a string no longer than the excess is kept whole.
   */
  lemma PayloadCutExactly(p: Json, ceiling: int)
    requires Wf(p) && !Fits(p, ceiling) && FindLargestString(p, []).Some?
    ensures var next := CutPayload(p, FindLargestString(p, []).value.path, ceiling);
            var excess := SerializedLength(p) - ceiling;
            var lost := EscapedLength(TargetString(p)) - EscapedLength(KeptTail(p, ceiling));
            && SerializedLength(next) == SerializedLength(p) + 64 - lost
            && (Fits(next, ceiling) <==> lost >= excess + 64)
            && (Fits(next, ceiling) <==> CutSuffices(p, ceiling))
            && (|TargetString(p)| <= excess ==> lost == 0 && SerializedLength(next) == SerializedLength(p) + 64)
            && TruncatePayload(p, ceiling) == if 64 < lost < excess + 64 then TruncatePayload(next, ceiling) else next
  {
    PayloadCutLength(p, ceiling);
  }

  /** For text that needs no escapes both conditions are about lengths alone. */
  lemma PlainPayloadCut(p: Json, ceiling: int)
    requires Wf(p) && !Fits(p, ceiling) && FindLargestString(p, []).Some?
    requires forall u <- TargetString(p) :: UnitCost(u) == 1
    ensures var next := CutPayload(p, FindLargestString(p, []).value.path, ceiling);
            var excess := SerializedLength(p) - ceiling;
            && (Fits(next, ceiling) <==> |TargetString(p)| >= 2 * excess + 64)
            && (SerializedLength(next) < SerializedLength(p) <==> |TargetString(p)| > excess + 64)
  {
    PayloadCutExactly(p, ceiling);
    PlainUnits(TargetString(p));
    PlainUnits(KeptTail(p, ceiling));
  }

  lemma PlainUnits(s: JsString)
    requires forall u <- s :: UnitCost(u) == 1
    ensures EscapedLength(s) == |s|
  {
    forall i | 0 <= i < |s| ensures UnitCost(s[i]) == 1 && !IsHigh(s[i]) { assert s[i] in s; }
    PlainLength(s);
  }

  /** The last stage fits if and only if one of its shrinking cuts leads to a body for which one more cut is enough. */
  lemma {:induction false} LastStageFitsExactly(p: Json, ceiling: int)
    requires Wf(p)
    ensures Fits(TruncatePayload(p, ceiling), ceiling)
            <==> Fits(p, ceiling) || exists last :: CutsTo(p, last, ceiling) && CutSuffices(last, ceiling)
    decreases SerializedLength(p)
  {
    var target := FindLargestString(p, []);
    if !Fits(p, ceiling) && target.Some? {
      var next := CutPayload(p, target.value.path, ceiling);
      PayloadCutExactly(p, ceiling);
      if CutSuffices(p, ceiling) {
        assert CutsTo(p, p, ceiling);
      } else if SerializedLength(next) < SerializedLength(p) {
        PayloadCutWf(p, ceiling);
        LastStageFitsExactly(next, ceiling);
        forall last ensures CutsTo(p, last, ceiling) && CutSuffices(last, ceiling) <==> CutsTo(next, last, ceiling) && CutSuffices(last, ceiling) {}
      }
    }
  }

  // ----- the whole fitter -----

  /** The result of the five stages, each skipped once the body fits. */
  function Fitted(p: Json, ceiling: int): Json
    requires p.Obj?
  {
    if Fits(p, ceiling) then p
    else if HasText(p) then TruncateStringInput(p, ceiling)
    else if !HasItems(p) then p
    else
      var a := StripImages(p, ceiling);
      if Fits(a, ceiling) || !HasItems(a) then a
      else
        var d := DropOldInputItems(a, ceiling);
        if !HasItems(d) then d
        else
          var b := DropOrphanedToolCallOutputs(d);
          if Fits(b, ceiling) || !HasItems(b) then b
          else
            var c := TruncateInputContent(b, ceiling);
            if Fits(c, ceiling) || !HasItems(c) then c
            else
              var m := MinimizeInput(c);
              if Fits(m, ceiling) then m else TruncatePayload(m, ceiling)
  }

  method FitResponsesPayload(payload: Json, ceiling: int) returns (current: Json)
    requires ValidPayload(payload)
    ensures current == Fitted(payload, ceiling)
  {
    if Fits(payload, ceiling) {
      return payload;
    }
    if HasText(payload) {
      return TruncateStringInput(payload, ceiling);
    }
    current := RunStripImages(payload, ceiling);
    StripIsMinimal(payload, ceiling);
    if Fits(current, ceiling) {
      return;
    }
    DropIsMinimal(current, ceiling);
    var dropped, count := RunDropOldInputItems(current, ceiling);
    OrphanPassValid(dropped);
    current := DropOrphanedToolCallOutputs(dropped);
    if Fits(current, ceiling) {
      return;
    }
    InputContentValid(current, ceiling);
    current := RunTruncateInputContent(current, ceiling);
    if Fits(current, ceiling) {
      return;
    }
    current := MinimizeInput(current);
    if Fits(current, ceiling) {
      return;
    }
    current := RunTruncatePayload(current, ceiling);
  }

  lemma OrphanPassValid(p: Json)
    requires Wf(p) && HasItems(p)
    ensures Wf(DropOrphanedToolCallOutputs(p)) && HasItems(DropOrphanedToolCallOutputs(p))
    ensures Items(DropOrphanedToolCallOutputs(p)) == DropOrphans(Items(p))
  {
    var items := Items(p);
    assert Wf(Get(p, "input").value);
    forall i | 0 <= i < |items| ensures Wf(DropOrphans(items)[i]) && DropOrphans(items)[i].Obj? {
      DroppedIsPlain(items[i]);
      assert items[i] in items;
    }
    WithItemsValid(p, DropOrphans(items));
  }
}
