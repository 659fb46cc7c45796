/**
 Input items of a Responses request: roles, tool calls and their outputs, images
 (services/copilot/create-responses.ts), with the item-level stages of the fitter.
 */
module ResponsesItems {
  import opened Common
  import opened JsonValues
  import opened StringPaths

  const IMAGE_STRIPPED_PLACEHOLDER := "[image removed to stay under upstream payload limit]"
  const INPUT_DROPPED_PLACEHOLDER := "[older response input omitted to stay under context limit]"

  function Text(literal: string): Json { Str(Units(literal)) }

  /** `item[key]` when it is a string. */
  function StringField(item: Json, key: string): Option<JsString> {
    var v := Get(item, key);
    if v.Some? && v.value.Str? then Some(v.value.s) else None
  }

  predicate HasRole(item: Json, role: string) {
    StringField(item, "role") == Some(Units(role))
  }

  predicate IsSystem(item: Json) {
    HasRole(item, "system") || HasRole(item, "developer")
  }

  predicate EndsWith(s: Option<JsString>, suffix: string) {
    s.Some? && |suffix| <= |s.value| && s.value[|s.value| - |suffix|..] == Units(suffix)
  }

  predicate IsToolCall(item: Json) { EndsWith(StringField(item, "type"), "_call") }

  predicate IsToolCallOutput(item: Json) { EndsWith(StringField(item, "type"), "_call_output") }

  /** The call id when it is a non-empty string. */
  function CallId(item: Json): Option<JsString> {
    if StringField(item, "call_id") == Some([]) then None else StringField(item, "call_id")
  }

  predicate Answers(output: Json, call: Json) {
    IsToolCall(call) && CallId(call) == CallId(output)
  }

  /** Every output that names a call has that call among the items. */
  ghost predicate NoOrphans(items: seq<Json>) {
    forall x <- items :: IsToolCallOutput(x) && CallId(x).Some? ==> exists y <- items :: Answers(x, y)
  }

  function Protected(items: seq<Json>): seq<Json> {
    if items == [] then []
    else if IsSystem(items[0]) then [items[0]] + Protected(items[1..])
    else Protected(items[1..])
  }

  lemma {:induction false} ProtectedMembers(items: seq<Json>, x: Json)
    ensures x in Protected(items) <==> x in items && IsSystem(x)
  {
    if items != [] {
      ProtectedMembers(items[1..], x);
      assert items == [items[0]] + items[1..];
    }
  }

  predicate SameItem(x: Json, y: Json) { x == y }

  /** They are exactly the system and developer items, in order. */
  lemma {:induction false} ProtectedExactly(items: seq<Json>)
    ensures Filtered(items, IsSystem, SameItem, Protected(items))
  {
    if items == [] {
      FilteredNone(IsSystem, SameItem);
    } else {
      ProtectedExactly(items[1..]);
      var head := if IsSystem(items[0]) then [items[0]] else [];
      FilteredMore(items, IsSystem, SameItem, head, Protected(items[1..]));
      assert Protected(items) == head + Protected(items[1..]);
    }
  }

  predicate AllObjects(items: seq<Json>) {
    forall x <- items :: x.Obj?
  }

  // ----- dropped items -----

  function DroppedItem(item: Json): Json {
    Obj([Field("role", Text(if HasRole(item, "assistant") then "assistant" else "user")),
         Field("content", Text(INPUT_DROPPED_PLACEHOLDER))])
  }

  /** A dropped item is a plain turn: no system role, no call, no output. */
  lemma DroppedIsPlain(item: Json)
    ensures var d := DroppedItem(item);
            Wf(d) && !IsSystem(d) && !IsToolCall(d) && !IsToolCallOutput(d)
  {
    var d := DroppedItem(item);
    assert d.fields[0].key == "role" && d.fields[1].key == "content";
    assert Find(d.fields, "role") == 0;
    assert Find(d.fields, "type") == 2;
    assert |Units("user")| == 4 && |Units("system")| == 6 && |Units("developer")| == 9;
    assert Units("assistant")[0] == 'a' as int && Units("developer")[0] == 'd' as int && |Units("assistant")| == 9;
    assert Get(d, "role") == Some(d.fields[0].value);
  }

  /** It keeps an assistant's turn an assistant's and makes everything else a user's, with the placeholder for its text. */
  lemma DroppedReads(item: Json)
    ensures var d := DroppedItem(item);
            && StringField(d, "role") == Some(Units(if StringField(item, "role") == Some(Units("assistant")) then "assistant" else "user"))
            && StringField(d, "content") == Some(Units("[older response input omitted to stay under context limit]"))
            && |d.fields| == 2
  {
    var d := DroppedItem(item);
    assert d.fields[0].key == "role" && d.fields[1].key == "content";
    assert Find(d.fields, "role") == 0 && Find(d.fields, "content") == 1;
  }

  // ----- orphaned outputs -----

  function CallIds(items: seq<Json>): set<JsString> {
    set x | x in items && IsToolCall(x) && CallId(x).Some? :: CallId(x).value
  }

  function DropOrphan(item: Json, ids: set<JsString>): Json {
    if !IsToolCallOutput(item) || CallId(item).None? || CallId(item).value in ids then item else DroppedItem(item)
  }

  function DropOrphans(items: seq<Json>): seq<Json> {
    seq(|items|, i requires 0 <= i < |items| => DropOrphan(items[i], CallIds(items)))
  }

  lemma CallIdsHas(items: seq<Json>, output: Json)
    requires CallId(output).Some?
    ensures CallId(output).value in CallIds(items) <==> exists y <- items :: Answers(output, y)
  {
  }

  /** No type ends with both suffixes. */
  lemma CallIsNoOutput(item: Json)
    requires IsToolCall(item)
    ensures !IsToolCallOutput(item)
  {
    var s := StringField(item, "type").value;
    var a, b := Units("_call"), Units("_call_output");
    assert |a| == 5 && |b| == 12;
    assert s[|s| - 5..][4] == a[4] == 'l' as int;
    assert b[11] == 't' as int;
    if |b| <= |s| {
      assert s[|s| - 12..][11] == s[|s| - 1];
    }
  }

  /** An output that the pass leaves in place answers a call that it leaves in place. */
  lemma KeptOutputAnswered(items: seq<Json>, i: nat) returns (j: nat)
    requires i < |items| && IsToolCallOutput(DropOrphan(items[i], CallIds(items)))
    requires CallId(DropOrphan(items[i], CallIds(items))).Some?
    ensures j < |items| && DropOrphans(items)[j] == items[j]
    ensures Answers(DropOrphan(items[i], CallIds(items)), items[j])
  {
    DroppedIsPlain(items[i]);
    assert CallId(items[i]).value in CallIds(items);
    CallIdsHas(items, items[i]);
    var y :| y in items && Answers(items[i], y);
    j :| 0 <= j < |items| && items[j] == y;
    CallIsNoOutput(y);
  }

  /** The orphan pass leaves no orphan, whatever the items were. */
  lemma OrphanPassLeavesNone(items: seq<Json>)
    ensures NoOrphans(DropOrphans(items))
  {
    var after := DropOrphans(items);
    forall x | x in after && IsToolCallOutput(x) && CallId(x).Some? ensures exists y <- after :: Answers(x, y) {
      var i :| 0 <= i < |after| && after[i] == x;
      var j := KeptOutputAnswered(items, i);
      assert after[j] in after;
    }
  }

  /** It does nothing exactly when there is nothing to do. */
  lemma OrphanPassIsExact(items: seq<Json>)
    ensures DropOrphans(items) == items <==> NoOrphans(items)
  {
    if NoOrphans(items) {
      forall i | 0 <= i < |items| ensures DropOrphans(items)[i] == items[i] {
        if IsToolCallOutput(items[i]) && CallId(items[i]).Some? {
          assert items[i] in items;
          CallIdsHas(items, items[i]);
        }
      }
    } else {
      var x :| x in items && IsToolCallOutput(x) && CallId(x).Some? && !exists y <- items :: Answers(x, y);
      var i :| 0 <= i < |items| && items[i] == x;
      CallIdsHas(items, x);
      DroppedIsPlain(x);
      assert DropOrphans(items)[i] == DroppedItem(x) != x;
    }
  }

  /** A second pass changes nothing. */
  lemma OrphanPassIsIdempotent(items: seq<Json>)
    ensures DropOrphans(DropOrphans(items)) == DropOrphans(items)
  {
    OrphanPassLeavesNone(items);
    OrphanPassIsExact(DropOrphans(items));
  }

  // ----- stages that rewrite items one by one -----

  /** `b` reads the same as `a` for everything the orphan rule looks at. */
  predicate SameCall(a: Json, b: Json) {
    && IsToolCall(a) == IsToolCall(b)
    && IsToolCallOutput(a) == IsToolCallOutput(b)
    && CallId(a) == CallId(b)
  }

  lemma SameFieldsSameCall(a: Json, b: Json)
    requires StringField(a, "type") == StringField(b, "type") && StringField(a, "call_id") == StringField(b, "call_id")
    ensures SameCall(a, b)
    ensures StringField(a, "role") == StringField(b, "role") ==> IsSystem(a) == IsSystem(b)
  {
  }

  lemma SameCallsNoOrphans(a: seq<Json>, b: seq<Json>)
    requires |a| == |b| && forall i :: 0 <= i < |a| ==> SameCall(a[i], b[i])
    requires NoOrphans(a)
    ensures NoOrphans(b)
  {
    forall x | x in b && IsToolCallOutput(x) && CallId(x).Some? ensures exists y <- b :: Answers(x, y) {
      var i :| 0 <= i < |b| && b[i] == x;
      assert a[i] in a;
      var y :| y in a && Answers(a[i], y);
      var j :| 0 <= j < |a| && a[j] == y;
      assert Answers(x, b[j]);
    }
  }

  /** Items rewritten one by one, keeping calls and the protected role. */
  ghost predicate Rewrites(a: seq<Json>, b: seq<Json>) {
    |a| == |b| && forall i :: 0 <= i < |a| ==> SameCall(a[i], b[i]) && IsSystem(a[i]) == IsSystem(b[i])
  }

  lemma RewritesCons(x: Json, y: Json, a: seq<Json>, b: seq<Json>)
    requires SameCall(x, y) && IsSystem(x) == IsSystem(y) && Rewrites(a, b)
    ensures Rewrites([x] + a, [y] + b)
  {
  }

  lemma {:induction false} RewritesProtected(a: seq<Json>, b: seq<Json>)
    requires Rewrites(a, b)
    ensures Rewrites(Protected(a), Protected(b))
  {
    if a != [] {
      RewritesProtected(a[1..], b[1..]);
      assert SameCall(a[0], b[0]) && IsSystem(a[0]) == IsSystem(b[0]);
      if IsSystem(a[0]) {
        RewritesCons(a[0], b[0], Protected(a[1..]), Protected(b[1..]));
      }
    }
  }

  lemma RewritesSymmetric(a: seq<Json>, b: seq<Json>)
    requires Rewrites(a, b)
    ensures Rewrites(b, a)
  {
  }

  lemma RewritesTransitive(a: seq<Json>, b: seq<Json>, c: seq<Json>)
    requires Rewrites(a, b) && Rewrites(b, c)
    ensures Rewrites(a, c)
  {
    forall i | 0 <= i < |a| ensures SameCall(a[i], c[i]) && IsSystem(a[i]) == IsSystem(c[i]) {
      assert SameCall(a[i], b[i]) && SameCall(b[i], c[i]);
    }
  }

  /** So whatever is an orphan before is one after, and the other way round. */
  lemma RewritesNoOrphans(a: seq<Json>, b: seq<Json>)
    requires Rewrites(a, b)
    ensures NoOrphans(a) <==> NoOrphans(b)
    ensures NoOrphans(Protected(a)) <==> NoOrphans(Protected(b))
  {
    RewritesSymmetric(a, b);
    RewritesKeepsNoOrphans(a, b);
    RewritesKeepsNoOrphans(b, a);
  }

  lemma RewritesKeepsNoOrphans(a: seq<Json>, b: seq<Json>)
    requires Rewrites(a, b)
    ensures NoOrphans(a) ==> NoOrphans(b)
    ensures NoOrphans(Protected(a)) ==> NoOrphans(Protected(b))
  {
    RewritesProtected(a, b);
    if NoOrphans(a) { SameCallsNoOrphans(a, b); }
    if NoOrphans(Protected(a)) { SameCallsNoOrphans(Protected(a), Protected(b)); }
  }

  // ----- oldest-first dropping -----

  function DroppableCount(items: seq<Json>): nat {
    if items == [] then 0 else (if IsSystem(items[0]) then 0 else 1) + DroppableCount(items[1..])
  }

  /** The first `k` items that are not system or developer items, replaced; everything else as it was. */
  function DropFirst(items: seq<Json>, k: nat): seq<Json> {
    seq(|items|, i requires 0 <= i < |items| =>
      if !IsSystem(items[i]) && DroppableCount(items[..i]) < k then DroppedItem(items[i]) else items[i])
  }

  lemma {:induction false} DroppableCountConcat(a: seq<Json>, b: seq<Json>)
    ensures DroppableCount(a + b) == DroppableCount(a) + DroppableCount(b)
  {
    if a == [] {
      assert a + b == b;
    } else {
      DroppableCountConcat(a[1..], b);
      assert (a + b)[1..] == a[1..] + b;
    }
  }

  lemma DroppableSplit(items: seq<Json>, i: nat)
    requires i < |items|
    ensures DroppableCount(items[..i + 1]) == DroppableCount(items[..i]) + (if IsSystem(items[i]) then 0 else 1)
    ensures DroppableCount(items) == DroppableCount(items[..i]) + DroppableCount(items[i..])
  {
    assert items[..i + 1] == items[..i] + [items[i]];
    DroppableCountConcat(items[..i], [items[i]]);
    DroppableParts(items, i);
  }

  lemma DroppableParts(items: seq<Json>, i: nat)
    requires i <= |items|
    ensures DroppableCount(items) == DroppableCount(items[..i]) + DroppableCount(items[i..])
  {
    assert items == items[..i] + items[i..];
    DroppableCountConcat(items[..i], items[i..]);
  }

  lemma {:induction false} DroppableMonotone(items: seq<Json>, i: nat, j: nat)
    requires i <= j <= |items|
    ensures DroppableCount(items[..i]) <= DroppableCount(items[..j])
  {
    assert items[..j] == items[..i] + items[i..j];
    DroppableCountConcat(items[..i], items[i..j]);
  }

  lemma DropOneMore(items: seq<Json>, index: nat)
    requires index < |items| && !IsSystem(items[index])
    ensures var k := DroppableCount(items[..index]);
            DropFirst(items, k + 1) == DropFirst(items, k)[index := DroppedItem(items[index])]
  {
    var k := DroppableCount(items[..index]);
    forall i | 0 <= i < |items| && i != index
      ensures DropFirst(items, k + 1)[i] == DropFirst(items, k)[i]
    {
      if i < index {
        DroppableSplit(items, i);
        DroppableMonotone(items, i + 1, index);
      } else {
        DroppableSplit(items, index);
        DroppableMonotone(items, index + 1, i);
      }
    }
  }

  /** Dropping keeps the number of items and every system and developer item in its place. */
  lemma DropFirstKeepsProtected(items: seq<Json>, k: nat)
    ensures |DropFirst(items, k)| == |items|
    ensures Protected(DropFirst(items, k)) == Protected(items)
  {
    forall i | 0 <= i < |items| ensures items[i] == DropFirst(items, k)[i] || (!IsSystem(items[i]) && !IsSystem(DropFirst(items, k)[i])) {
      DroppedIsPlain(items[i]);
    }
    ProtectedPointwise(items, DropFirst(items, k));
  }

  lemma {:induction false} ProtectedPointwise(a: seq<Json>, b: seq<Json>)
    requires |a| == |b|
    requires forall i :: 0 <= i < |a| ==> a[i] == b[i] || (!IsSystem(a[i]) && !IsSystem(b[i]))
    ensures Protected(a) == Protected(b)
  {
    if a != [] { ProtectedPointwise(a[1..], b[1..]); }
  }

  /** The last two droppable items are never dropped when `k` leaves two. */
  lemma LastTwoSurvive(items: seq<Json>, k: nat, i: nat)
    requires i < |items| && k + 2 <= DroppableCount(items)
    requires DroppableCount(items[i..]) <= 2
    ensures DropFirst(items, k)[i] == items[i]
  {
    DroppableSplit(items, i);
  }

  /** A protected orphan-free part passes through the orphan pass untouched. */
  lemma OrphanPassKeepsProtected(items: seq<Json>)
    requires NoOrphans(Protected(items))
    ensures Protected(DropOrphans(items)) == Protected(items)
  {
    var after := DropOrphans(items);
    forall i | 0 <= i < |items| ensures items[i] == after[i] || (!IsSystem(items[i]) && !IsSystem(after[i])) {
      var x := items[i];
      DroppedIsPlain(x);
      if IsSystem(x) && IsToolCallOutput(x) && CallId(x).Some? {
        ProtectedMembers(items, x);
        var y :| y in Protected(items) && Answers(x, y);
        ProtectedMembers(items, y);
        CallIdsHas(items, x);
      }
    }
    ProtectedPointwise(items, after);
  }

  // ----- protected outputs that lose their calls when only protected items are kept -----

  /** The item at `j` answers the one at `i`, is not protected, and is not among the first `k` that may be dropped. */
  predicate KeptCall(items: seq<Json>, k: nat, i: nat, j: nat)
    requires i < |items| && j < |items|
  {
    !IsSystem(items[j]) && DroppableCount(items[..j]) >= k && Answers(items[i], items[j])
  }

  /** The item at `i` is a protected output whose calls are all unprotected, and one of them is not dropped. */
  ghost predicate ReliesOnUnprotected(items: seq<Json>, k: nat, i: nat)
    requires i < |items|
  {
    && IsSystem(items[i]) && IsToolCallOutput(items[i]) && CallId(items[i]).Some?
    && (forall y <- items :: IsSystem(y) ==> !Answers(items[i], y))
    && exists j :: 0 <= j < |items| && KeptCall(items, k, i, j)
  }

  ghost predicate LosesCall(items: seq<Json>, k: nat) {
    exists i :: 0 <= i < |items| && ReliesOnUnprotected(items, k, i)
  }

  /** An item of the dropped and swept list that is not a placeholder is one of the originals, in its place. */
  lemma SweptItem(items: seq<Json>, k: nat, j: nat)
    requires j < |items|
    ensures var d := DropFirst(items, k);
            var b := DropOrphans(d);
            && |d| == |b| == |items|
            && (IsSystem(b[j]) || IsToolCall(b[j]) || IsToolCallOutput(b[j]) ==> b[j] == d[j] == items[j])
            && (IsSystem(items[j]) ==> d[j] == items[j])
            && (IsToolCall(d[j]) ==> b[j] == d[j] == items[j] && (IsSystem(items[j]) || DroppableCount(items[..j]) >= k))
  {
    DroppedIsPlain(items[j]);
    DroppedIsPlain(DropFirst(items, k)[j]);
    if IsToolCall(DropFirst(items, k)[j]) { CallIsNoOutput(DropFirst(items, k)[j]); }
  }

  lemma LosingCallMakesOrphan(items: seq<Json>, k: nat, i: nat)
    requires i < |items| && ReliesOnUnprotected(items, k, i)
    ensures !NoOrphans(Protected(DropOrphans(DropFirst(items, k))))
  {
    var d := DropFirst(items, k);
    var b := DropOrphans(d);
    var j :| 0 <= j < |items| && KeptCall(items, k, i, j);
    var x := items[i];
    assert d[j] == items[j] && d[j] in d;
    SweptItem(items, k, i);
    CallIdsHas(d, x);
    assert b[i] == x;
    ProtectedMembers(b, x);
    forall y | y in Protected(b) ensures !Answers(x, y) {
      ProtectedMembers(b, y);
      var m :| 0 <= m < |b| && b[m] == y;
      SweptItem(items, k, m);
    }
  }

  /** A protected output without a protected call after the sweep has none among the originals either. */
  lemma NoProtectedCall(items: seq<Json>, k: nat, x: Json, y: Json)
    requires y in items && IsSystem(y) && Answers(x, y)
    ensures y in Protected(DropOrphans(DropFirst(items, k)))
  {
    var m :| 0 <= m < |items| && items[m] == y;
    SweptItem(items, k, m);
    ProtectedMembers(DropOrphans(DropFirst(items, k)), y);
  }

  /** What still answers it is an unprotected call that was not dropped. */
  lemma RemainingCall(items: seq<Json>, k: nat, i: nat, x: Json)
    requires i < |items| && items[i] == x && IsToolCallOutput(x) && CallId(x).Some?
    requires var b := DropOrphans(DropFirst(items, k)); x in b && !exists y <- Protected(b) :: Answers(x, y)
    ensures exists j :: 0 <= j < |items| && KeptCall(items, k, i, j)
  {
    var d := DropFirst(items, k);
    var b := DropOrphans(d);
    OrphanPassLeavesNone(d);
    var y :| y in b && Answers(x, y);
    var j :| 0 <= j < |b| && b[j] == y;
    SweptItem(items, k, j);
    ProtectedMembers(b, y);
    assert KeptCall(items, k, i, j);
  }

  lemma OrphanHadLostCall(items: seq<Json>, k: nat)
    requires !NoOrphans(Protected(DropOrphans(DropFirst(items, k))))
    ensures LosesCall(items, k)
  {
    var b := DropOrphans(DropFirst(items, k));
    var x :| x in Protected(b) && IsToolCallOutput(x) && CallId(x).Some? && !exists y <- Protected(b) :: Answers(x, y);
    ProtectedMembers(b, x);
    var i :| 0 <= i < |b| && b[i] == x;
    SweptItem(items, k, i);
    forall y | y in items && IsSystem(y) ensures !Answers(x, y) {
      if Answers(x, y) { NoProtectedCall(items, k, x, y); }
    }
    RemainingCall(items, k, i, x);
    assert ReliesOnUnprotected(items, k, i);
  }

  /** Dropping and sweeping leave an orphan among the protected items exactly when one of them loses its call. */
  lemma SweptOrphansExactly(items: seq<Json>, k: nat)
    ensures NoOrphans(Protected(DropOrphans(DropFirst(items, k)))) <==> !LosesCall(items, k)
  {
    if LosesCall(items, k) {
      var i :| 0 <= i < |items| && ReliesOnUnprotected(items, k, i);
      LosingCallMakesOrphan(items, k, i);
    } else if !NoOrphans(Protected(DropOrphans(DropFirst(items, k)))) {
      OrphanHadLostCall(items, k);
    }
  }

  lemma {:induction false} RewritesDroppable(a: seq<Json>, b: seq<Json>)
    requires Rewrites(a, b)
    ensures DroppableCount(a) == DroppableCount(b)
  {
    if a != [] { RewritesDroppable(a[1..], b[1..]); }
  }

  lemma RewritesKeptCall(a: seq<Json>, b: seq<Json>, k: nat, i: nat, j: nat)
    requires Rewrites(a, b) && i < |a| && j < |a|
    ensures KeptCall(a, k, i, j) <==> KeptCall(b, k, i, j)
  {
    RewritesDroppable(a[..j], b[..j]);
    assert SameCall(a[i], b[i]) && SameCall(a[j], b[j]);
  }

  lemma RewritesReliance(a: seq<Json>, b: seq<Json>, k: nat, i: nat)
    requires Rewrites(a, b) && i < |a| && ReliesOnUnprotected(a, k, i)
    ensures ReliesOnUnprotected(b, k, i)
  {
    assert SameCall(a[i], b[i]);
    forall y | y in b && IsSystem(y) ensures !Answers(b[i], y) {
      var m :| 0 <= m < |b| && b[m] == y;
      assert a[m] in a && SameCall(a[m], b[m]) && IsSystem(a[m]) == IsSystem(b[m]);
    }
    var j :| 0 <= j < |a| && KeptCall(a, k, i, j);
    RewritesKeptCall(a, b, k, i, j);
  }

  lemma RewritesLosesCall(a: seq<Json>, b: seq<Json>, k: nat)
    requires Rewrites(a, b)
    ensures LosesCall(a, k) <==> LosesCall(b, k)
  {
    RewritesSymmetric(a, b);
    if LosesCall(a, k) {
      var i :| 0 <= i < |a| && ReliesOnUnprotected(a, k, i);
      RewritesReliance(a, b, k, i);
    }
    if LosesCall(b, k) {
      var i :| 0 <= i < |b| && ReliesOnUnprotected(b, k, i);
      RewritesReliance(b, a, k, i);
    }
  }
}
