/**
 Collecting the images of a Responses input and replacing them, oldest first
 (`collectImageLocations`, `replaceImageWithPlaceholder`, services/copilot/create-responses.ts).
 */
module ResponsesImages {
  import opened Common
  import opened JsonValues
  import opened StringPaths
  import opened ResponsesItems

  datatype ImageLocation = ImageLocation(inputIndex: nat, contentIndex: nat)

  const ImagePlaceholder := Obj([Field("type", Text("input_text")), Field("text", Text(IMAGE_STRIPPED_PLACEHOLDER))])

  predicate IsImage(part: Json) {
    Get(part, "type") == Some(Text("input_image"))
  }

  /** The content parts of an item; none when the content is not an array. */
  function Parts(item: Json): seq<Json> {
    var c := Get(item, "content");
    if c.Some? && c.value.Arr? then c.value.items else []
  }

  /** Images of `parts` from position `c` on, in order. */
  function PartLocations(parts: seq<Json>, inputIndex: nat, c: nat): seq<ImageLocation>
    requires c <= |parts|
    decreases |parts| - c
  {
    if c == |parts| then []
    else (if IsImage(parts[c]) then [ImageLocation(inputIndex, c)] else []) + PartLocations(parts, inputIndex, c + 1)
  }

  /** Images of the items from position `i` on, in document order. */
  function LocationsFrom(items: seq<Json>, i: nat): seq<ImageLocation>
    requires i <= |items|
    decreases |items| - i
  {
    if i == |items| then [] else PartLocations(Parts(items[i]), i, 0) + LocationsFrom(items, i + 1)
  }

  method CollectPartLocations(parts: seq<Json>, inputIndex: nat) returns (locations: seq<ImageLocation>)
    ensures locations == PartLocations(parts, inputIndex, 0)
  {
    locations := [];
    for c := 0 to |parts|
      invariant locations + PartLocations(parts, inputIndex, c) == PartLocations(parts, inputIndex, 0)
    {
      ghost var rest := PartLocations(parts, inputIndex, c + 1);
      if IsImage(parts[c]) {
        Associative(locations, [ImageLocation(inputIndex, c)], rest);
        locations := locations + [ImageLocation(inputIndex, c)];
      } else {
        assert [] + rest == rest;
      }
    }
  }

  method CollectImageLocations(items: seq<Json>) returns (locations: seq<ImageLocation>)
    ensures locations == LocationsFrom(items, 0)
  {
    locations := [];
    for i := 0 to |items|
      invariant locations + LocationsFrom(items, i) == LocationsFrom(items, 0)
    {
      var content := Get(items[i], "content");
      if content.None? || !content.value.Arr? {
        assert PartLocations(Parts(items[i]), i, 0) == [];
        assert LocationsFrom(items, i) == [] + LocationsFrom(items, i + 1) == LocationsFrom(items, i + 1);
        continue;
      }
      var more := CollectPartLocations(content.value.items, i);
      Associative(locations, more, LocationsFrom(items, i + 1));
      locations := locations + more;
    }
  }

  predicate Holds(items: seq<Json>, at: ImageLocation) {
    at.inputIndex < |items| && at.contentIndex < |Parts(items[at.inputIndex])|
  }

  function PartAt(items: seq<Json>, at: ImageLocation): Json
    requires Holds(items, at)
  {
    Parts(items[at.inputIndex])[at.contentIndex]
  }

  predicate Earlier(a: ImageLocation, b: ImageLocation) {
    a.inputIndex < b.inputIndex || (a.inputIndex == b.inputIndex && a.contentIndex < b.contentIndex)
  }

  // ----- the collected list is exactly the images, in document order -----

  predicate InDocumentOrder(ls: seq<ImageLocation>) {
    forall a, b :: 0 <= a < b < |ls| ==> Earlier(ls[a], ls[b])
  }

  lemma OrderedConcat(x: seq<ImageLocation>, y: seq<ImageLocation>)
    requires InDocumentOrder(x) && InDocumentOrder(y)
    requires forall a, b :: a in x && b in y ==> Earlier(a, b)
    ensures InDocumentOrder(x + y)
  {
    var z := x + y;
    forall a, b | 0 <= a < b < |z| ensures Earlier(z[a], z[b]) {
      if a < |x| <= b {
        assert x[a] in x && y[b - |x|] in y;
      }
    }
  }

  lemma {:induction false} PartLocationsExact(parts: seq<Json>, i: nat, c: nat)
    requires c <= |parts|
    ensures forall at :: at in PartLocations(parts, i, c) <==>
              at.inputIndex == i && c <= at.contentIndex < |parts| && IsImage(parts[at.contentIndex])
    ensures InDocumentOrder(PartLocations(parts, i, c))
    decreases |parts| - c
  {
    if c < |parts| {
      PartLocationsExact(parts, i, c + 1);
      var head := if IsImage(parts[c]) then [ImageLocation(i, c)] else [];
      var tail := PartLocations(parts, i, c + 1);
      OrderedConcat(head, tail);
      assert forall at :: at in head + tail <==> at in head || at in tail;
    }
  }

  lemma {:induction false} LocationsExact(items: seq<Json>, i: nat)
    requires i <= |items|
    ensures forall at :: at in LocationsFrom(items, i) <==>
              i <= at.inputIndex && Holds(items, at) && IsImage(PartAt(items, at))
    ensures InDocumentOrder(LocationsFrom(items, i))
    decreases |items| - i
  {
    if i < |items| {
      LocationsExact(items, i + 1);
      PartLocationsExact(Parts(items[i]), i, 0);
      var head, tail := PartLocations(Parts(items[i]), i, 0), LocationsFrom(items, i + 1);
      assert forall at :: at in head + tail <==> at in head || at in tail;
      OrderedConcat(head, tail);
    }
  }

  // ----- replacing -----

  function ReplaceImage(items: seq<Json>, at: ImageLocation): seq<Json>
    requires Holds(items, at)
  {
    var item := items[at.inputIndex];
    items[at.inputIndex := Set(item, "content", Arr(Parts(item)[at.contentIndex := ImagePlaceholder]))]
  }

  lemma PlaceholderIsNoImage()
    ensures !IsImage(ImagePlaceholder) && Wf(ImagePlaceholder)
  {
    assert ImagePlaceholder.fields[0].key == "type" && ImagePlaceholder.fields[1].key == "text";
    assert Find(ImagePlaceholder.fields, "type") == 0;
    assert |Units("input_text")| == 10 && |Units("input_image")| == 11;
  }

  function Members(ls: seq<ImageLocation>): set<ImageLocation> {
    set at | at in ls
  }

  /** `r` is `items` with placeholders at exactly the given locations and no other change. */
  ghost predicate Replaced(items: seq<Json>, r: seq<Json>, at: set<ImageLocation>) {
    && |r| == |items|
    && (forall i :: 0 <= i < |items| ==> |Parts(r[i])| == |Parts(items[i])|)
    && (forall b :: Holds(items, b) ==> PartAt(r, b) == if b in at then ImagePlaceholder else PartAt(items, b))
    && (forall i, k :: 0 <= i < |items| && k != "content" ==> Get(r[i], k) == Get(items[i], k))
  }

  /** What stands where an image stood: a text part that says so. */
  lemma StrippedImageReads()
    ensures Get(ImagePlaceholder, "type") == Some(Text("input_text"))
    ensures Get(ImagePlaceholder, "text") == Some(Text("[image removed to stay under upstream payload limit]"))
  {
    var f := ImagePlaceholder.fields;
    assert f[0].key == "type" && f[1].key == "text";
    assert Find(f, "type") == 0 && Find(f, "text") == 1;
  }

  lemma ReplaceOne(items: seq<Json>, at: ImageLocation)
    requires Holds(items, at)
    ensures Replaced(items, ReplaceImage(items, at), {at})
  {
    var item := items[at.inputIndex];
    var parts := Arr(Parts(item)[at.contentIndex := ImagePlaceholder]);
    forall k ensures Get(Set(item, "content", parts), k) == if k == "content" then Some(parts) else Get(item, k) {
      GetSet(item, "content", parts, k);
    }
  }

  lemma ReplacedTwice(a: seq<Json>, b: seq<Json>, c: seq<Json>, x: set<ImageLocation>, y: set<ImageLocation>)
    requires Replaced(a, b, x) && Replaced(b, c, y)
    ensures Replaced(a, c, x + y)
  {
    forall p | Holds(a, p) ensures PartAt(c, p) == if p in x + y then ImagePlaceholder else PartAt(a, p) {
      assert Holds(b, p);
    }
  }

  /** The first `n` of the collected images replaced, one after the other. */
  function StripFirst(items: seq<Json>, locations: seq<ImageLocation>, n: nat): (r: seq<Json>)
    requires n <= |locations|
    requires forall at <- locations :: Holds(items, at)
    ensures |r| == |items|
    ensures forall at <- locations :: Holds(r, at)
  {
    if n == 0 then items
    else
      var before := StripFirst(items, locations, n - 1);
      assert locations[n - 1] in locations;
      ReplaceOne(before, locations[n - 1]);
      ReplaceImage(before, locations[n - 1])
  }

  /**
   Earlier replacements never invalidate later locations: after `n` of them exactly the
   parts at the first `n` locations are placeholders, all other parts and fields are as they were.
   */
  lemma {:induction false} StripFirstExact(items: seq<Json>, locations: seq<ImageLocation>, n: nat)
    requires n <= |locations|
    requires forall at <- locations :: Holds(items, at)
    ensures Replaced(items, StripFirst(items, locations, n), Members(locations[..n]))
  {
    if n > 0 {
      StripFirstExact(items, locations, n - 1);
      StripNextExact(items, locations, n);
    } else {
      StripNone(items, locations);
    }
  }

  lemma StripNone(items: seq<Json>, locations: seq<ImageLocation>)
    requires forall at <- locations :: Holds(items, at)
    ensures Replaced(items, StripFirst(items, locations, 0), Members(locations[..0]))
  {
    assert Members(locations[..0]) == {};
  }

  lemma StripNextExact(items: seq<Json>, locations: seq<ImageLocation>, n: nat)
    requires 0 < n <= |locations|
    requires forall at <- locations :: Holds(items, at)
    requires Replaced(items, StripFirst(items, locations, n - 1), Members(locations[..n - 1]))
    ensures Replaced(items, StripFirst(items, locations, n), Members(locations[..n]))
  {
    assert locations[n - 1] in locations;
    var before := StripFirst(items, locations, n - 1);
    ReplaceOne(before, locations[n - 1]);
    ReplacedTwice(items, before, ReplaceImage(before, locations[n - 1]), Members(locations[..n - 1]), {locations[n - 1]});
    MembersNext(locations, n);
  }

  lemma MembersNext(locations: seq<ImageLocation>, n: nat)
    requires 0 < n <= |locations|
    ensures Members(locations[..n]) == Members(locations[..n - 1]) + {locations[n - 1]}
  {
    assert locations[..n] == locations[..n - 1] + [locations[n - 1]];
  }

  lemma OrderedSplit(ls: seq<ImageLocation>, n: nat)
    requires n <= |ls| && InDocumentOrder(ls)
    ensures InDocumentOrder(ls[n..])
    ensures forall at :: at in ls[n..] <==> at in ls && at !in ls[..n]
  {
    assert ls == ls[..n] + ls[n..];
  }

  lemma ReplacedLocations(items: seq<Json>, r: seq<Json>, gone: set<ImageLocation>, at: ImageLocation)
    requires Replaced(items, r, gone)
    ensures at in LocationsFrom(r, 0) <==> at in LocationsFrom(items, 0) && at !in gone
  {
    LocationsExact(items, 0);
    LocationsExact(r, 0);
    PlaceholderIsNoImage();
    assert Holds(r, at) <==> Holds(items, at);
  }

  /** Collecting again after `n` replacements finds the remaining locations, in the same order. */
  lemma StrippedLocationsRemain(items: seq<Json>, n: nat)
    requires n <= |LocationsFrom(items, 0)|
    ensures var ls := LocationsFrom(items, 0);
            && (forall at <- ls :: Holds(items, at))
            && LocationsFrom(StripFirst(items, ls, n), 0) == ls[n..]
  {
    var ls := LocationsFrom(items, 0);
    LocationsExact(items, 0);
    StripFirstExact(items, ls, n);
    var r := StripFirst(items, ls, n);
    LocationsExact(r, 0);
    OrderedSplit(ls, n);
    var gone := Members(ls[..n]);
    forall at ensures at in LocationsFrom(r, 0) <==> at in ls[n..] {
      ReplacedLocations(items, r, gone, at);
    }
    SortedSame(LocationsFrom(r, 0), ls[n..]);
  }

  lemma {:induction false} SortedSame(a: seq<ImageLocation>, b: seq<ImageLocation>)
    requires InDocumentOrder(a) && InDocumentOrder(b)
    requires forall x :: x in a <==> x in b
    ensures a == b
    decreases |a|
  {
    assert |b| > 0 ==> b[0] in b;
    if a != [] {
      assert a[0] in b && a[0] in a;
      assert b[0] in b && b[0] in a;
      var i :| 0 <= i < |a| && a[i] == b[0];
      var j :| 0 <= j < |b| && b[j] == a[0];
      assert a[0] == b[0];
      forall x ensures x in a[1..] <==> x in b[1..] {
        if x in a[1..] {
          var k :| 0 <= k < |a[1..]| && a[1..][k] == x;
          assert a[k + 1] == x && Earlier(a[0], a[k + 1]);
          assert x in a && x in b;
          var m :| 0 <= m < |b| && b[m] == x;
          assert b[1..][m - 1] == x;
        }
        if x in b[1..] {
          var k :| 0 <= k < |b[1..]| && b[1..][k] == x;
          assert b[k + 1] == x && Earlier(b[0], b[k + 1]);
          assert x in b && x in a;
          var m :| 0 <= m < |a| && a[m] == x;
          assert a[1..][m - 1] == x;
        }
      }
      SortedSame(a[1..], b[1..]);
    }
  }

  lemma StripRewrites(items: seq<Json>, locations: seq<ImageLocation>, n: nat)
    requires n <= |locations|
    requires forall at <- locations :: Holds(items, at)
    ensures Rewrites(items, StripFirst(items, locations, n))
  {
    StripFirstExact(items, locations, n);
    ReplacedRewrites(items, StripFirst(items, locations, n), Members(locations[..n]));
  }

  lemma ReplacedRewrites(items: seq<Json>, r: seq<Json>, gone: set<ImageLocation>)
    requires Replaced(items, r, gone)
    ensures Rewrites(items, r)
  {
    forall i | 0 <= i < |items| ensures SameCall(items[i], r[i]) && IsSystem(items[i]) == IsSystem(r[i]) {
      ReplacedField(items, r, gone, i, "type");
      ReplacedField(items, r, gone, i, "call_id");
      ReplacedField(items, r, gone, i, "role");
      SameFieldsSameCall(items[i], r[i]);
    }
  }

  lemma ReplacedField(items: seq<Json>, r: seq<Json>, gone: set<ImageLocation>, i: nat, k: string)
    requires Replaced(items, r, gone) && i < |items| && k != "content"
    ensures StringField(items[i], k) == StringField(r[i], k)
  {
    assert Get(r[i], k) == Get(items[i], k);
  }
}
