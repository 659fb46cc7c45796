/**
 Finding and cutting string leaves of a JSON value by path
 (`findLargestStringInValue`, `truncateStringAtPath`, services/copilot/create-responses.ts).
 */
module StringPaths {
  import opened Common
  import opened JsonValues

  datatype Step = Index(i: nat) | Key(k: string)
  type Path = seq<Step>

  const PRESERVED_INPUT_STRING_KEYS := {
    "call_id", "id", "model", "name", "previous_response_id", "role", "status", "tool_call_id", "type"
  }

  /** Two escaped newlines at the end: 62 units, 64 characters once serialized. */
  const INPUT_TRUNCATED_PREFIX :=
    "[older response" + " input truncate" + "d to stay under" + " context limit]" + "\n\n"

  const Prefix := Units(INPUT_TRUNCATED_PREFIX)

  // ----- reading a path -----

  function At(v: Json, p: Path): Option<Json>
    decreases |p|
  {
    if p == [] then Some(v)
    else
      match Child(v, p[0])
      case None => None
      case Some(c) => At(c, p[1..])
  }

  function Child(v: Json, s: Step): Option<Json> {
    match s
    case Index(i) => if v.Arr? && i < |v.items| then Some(v.items[i]) else None
    case Key(k) => Get(v, k)
  }

  /** The keys of every object are distinct, as in any JavaScript object. */
  ghost predicate Wf(v: Json) {
    match v
    case Arr(items) => forall i :: 0 <= i < |items| ==> Wf(items[i])
    case Obj(fields) =>
      && (forall i, j :: 0 <= i < j < |fields| ==> fields[i].key != fields[j].key)
      && (forall i :: 0 <= i < |fields| ==> Wf(fields[i].value))
    case _ => true
  }

  predicate Preserved(p: Path) {
    p != [] && p[|p| - 1].Key? && p[|p| - 1].k in PRESERVED_INPUT_STRING_KEYS
  }

  /** `base + p` leads to a string that may be cut; `p` starts at `v`. */
  predicate Eligible(v: Json, base: Path, p: Path) {
    At(v, p).Some? && At(v, p).value.Str? && !Preserved(base + p)
  }

  function LeafLength(v: Json, p: Path): nat {
    if At(v, p).Some? && At(v, p).value.Str? then |At(v, p).value.s| else 0
  }

  function Position(v: Json, s: Step): nat {
    match s
    case Index(i) => i
    case Key(k) => if v.Obj? then Find(v.fields, k) else 0
  }

  /** `p` is visited before `q` when `v` is traversed in order. */
  predicate Before(v: Json, p: Path, q: Path)
    decreases |p|
  {
    p != [] && q != [] &&
    (|| Position(v, p[0]) < Position(v, q[0])
     || (p[0] == q[0] && Child(v, p[0]).Some? && Before(Child(v, p[0]).value, p[1..], q[1..])))
  }

  // ----- the search -----

  datatype Candidate = Candidate(length: nat, path: Path)

  function Larger(largest: Option<Candidate>, candidate: Option<Candidate>): Option<Candidate> {
    if candidate.Some? && (largest.None? || candidate.value.length > largest.value.length) then candidate else largest
  }

  function FindLargestString(v: Json, path: Path): Option<Candidate>
    decreases v, 0, 0
  {
    match v
    case Str(s) => if Preserved(path) then None else Some(Candidate(|s|, path))
    case Arr(items) => FindInItems(items, 0, path, None)
    case Obj(fields) => FindInFields(fields, 0, path, None)
    case _ => None
  }

  function FindInItems(items: seq<Json>, i: nat, path: Path, largest: Option<Candidate>): Option<Candidate>
    requires i <= |items|
    decreases items, 1, |items| - i
  {
    if i == |items| then largest
    else FindInItems(items, i + 1, path, Larger(largest, FindLargestString(items[i], path + [Index(i)])))
  }

  function FindInFields(fields: seq<Field>, i: nat, path: Path, largest: Option<Candidate>): Option<Candidate>
    requires i <= |fields|
    decreases fields, 1, |fields| - i
  {
    if i == |fields| then largest
    else FindInFields(fields, i + 1, path, Larger(largest, FindLargestString(fields[i].value, path + [Key(fields[i].key)])))
  }

  // ----- what the search finds -----

  /** `c` is the first of the longest eligible strings among those whose first step comes before position `n`. */
  ghost predicate BestBelow(v: Json, base: Path, n: nat, c: Option<Candidate>) {
    match c
    case None => forall q :: Eligible(v, base, q) && q != [] ==> Position(v, q[0]) >= n
    case Some(b) =>
      base <= b.path
      && var p := b.path[|base|..]; p != [] && Position(v, p[0]) < n && FirstLongest(v, base, n, p, b.length)
  }

  ghost predicate FirstLongest(v: Json, base: Path, n: nat, p: Path, length: nat) {
    && Eligible(v, base, p) && LeafLength(v, p) == length
    && forall q :: Eligible(v, base, q) && q != [] && Position(v, q[0]) < n ==>
         LeafLength(v, q) <= length && (Before(v, q, p) ==> LeafLength(v, q) < length)
  }

  /**
   `c` answers the search of `v`: None exactly when there is no eligible string, otherwise a
   path to one of maximal length, and to the first such one in traversal order.
   */
  ghost predicate Best(v: Json, base: Path, c: Option<Candidate>) {
    match c
    case None => forall q :: !Eligible(v, base, q)
    case Some(b) => base <= b.path && IsBest(v, base, b.path[|base|..], b.length)
  }

  ghost predicate IsBest(v: Json, base: Path, p: Path, length: nat) {
    && Eligible(v, base, p) && LeafLength(v, p) == length
    && forall q :: Eligible(v, base, q) ==> LeafLength(v, q) <= length && (Before(v, q, p) ==> LeafLength(v, q) < length)
  }

  lemma EligibleChild(v: Json, base: Path, s: Step, q: Path)
    requires Child(v, s).Some?
    ensures Eligible(v, base, [s] + q) <==> Eligible(Child(v, s).value, base + [s], q)
    ensures LeafLength(v, [s] + q) == LeafLength(Child(v, s).value, q)
  {
    assert ([s] + q)[1..] == q;
    assert base + ([s] + q) == base + [s] + q;
  }

  lemma EligibleVia(v: Json, base: Path, s: Step, q: Path)
    requires Child(v, s).Some? && Eligible(v, base, q) && q != [] && q[0] == s
    ensures Eligible(Child(v, s).value, base + [s], q[1..])
    ensures LeafLength(v, q) == LeafLength(Child(v, s).value, q[1..])
  {
    assert q == [s] + q[1..];
    EligibleChild(v, base, s, q[1..]);
  }

  lemma KeepLargest(v: Json, base: Path, n: nat, p: Path, length: nat)
    requires p != [] && Position(v, p[0]) < n && FirstLongest(v, base, n, p, length)
    requires forall q :: Eligible(v, base, q) && q != [] && Position(v, q[0]) == n ==> LeafLength(v, q) <= length
    ensures FirstLongest(v, base, n + 1, p, length)
  {
  }

  lemma TakeCandidate(v: Json, base: Path, n: nat, s: Step, r: Path, length: nat)
    requires Child(v, s).Some? && Position(v, s) == n
    requires forall t :: Child(v, t).Some? && Position(v, t) == n ==> t == s
    requires IsBest(Child(v, s).value, base + [s], r, length)
    requires forall q :: Eligible(v, base, q) && q != [] && Position(v, q[0]) < n ==> LeafLength(v, q) < length
    ensures FirstLongest(v, base, n + 1, [s] + r, length)
  {
    EligibleChild(v, base, s, r);
    forall q | Eligible(v, base, q) && q != [] && Position(v, q[0]) < n + 1
      ensures LeafLength(v, q) <= length && (Before(v, q, [s] + r) ==> LeafLength(v, q) < length)
    {
      if Position(v, q[0]) == n {
        EligibleVia(v, base, s, q);
        assert ([s] + r)[1..] == r;
      }
    }
  }

  /** One more child looked at, and nothing larger found. */
  lemma BestKept(v: Json, base: Path, n: nat, s: Step, largest: Option<Candidate>, candidate: Option<Candidate>)
    requires BestBelow(v, base, n, largest) && Larger(largest, candidate) == largest
    requires forall q :: Eligible(v, base, q) && q != [] && Position(v, q[0]) == n ==>
               candidate.Some? && LeafLength(v, q) <= candidate.value.length
    ensures BestBelow(v, base, n + 1, largest)
  {
    if largest.Some? {
      KeepLargest(v, base, n, largest.value.path[|base|..], largest.value.length);
    }
  }

  lemma BestTaken(v: Json, base: Path, n: nat, s: Step, largest: Option<Candidate>, c: Candidate)
    requires Child(v, s).Some? && Position(v, s) == n
    requires forall t :: Child(v, t).Some? && Position(v, t) == n ==> t == s
    requires BestBelow(v, base, n, largest) && (largest.None? || c.length > largest.value.length)
    requires Best(Child(v, s).value, base + [s], Some(c))
    ensures BestBelow(v, base, n + 1, Some(c))
  {
    var r := c.path[|base| + 1..];
    assert c.path[|base|] == (base + [s])[|base|] == s;
    assert c.path[|base|..] == [s] + r;
    TakeCandidate(v, base, n, s, r, c.length);
  }

  /** One more child looked at. */
  lemma BestStep(v: Json, base: Path, n: nat, s: Step, largest: Option<Candidate>, candidate: Option<Candidate>)
    requires Child(v, s).Some? && Position(v, s) == n
    requires forall t :: Child(v, t).Some? && Position(v, t) == n ==> t == s
    requires BestBelow(v, base, n, largest)
    requires Best(Child(v, s).value, base + [s], candidate)
    ensures BestBelow(v, base, n + 1, Larger(largest, candidate))
  {
    if Larger(largest, candidate) == largest {
      forall q | Eligible(v, base, q) && q != [] && Position(v, q[0]) == n
        ensures candidate.Some? && LeafLength(v, q) <= candidate.value.length
      {
        EligibleVia(v, base, s, q);
      }
      BestKept(v, base, n, s, largest, candidate);
    } else {
      BestTaken(v, base, n, s, largest, candidate.value);
    }
  }

  /**
   The search is right on every JSON value: it returns None if and only if no string may be
   cut, and otherwise the path of the first of the longest strings that may.
   */
  lemma {:induction false} SearchFindsFirstLongest(v: Json, path: Path)
    requires Wf(v)
    ensures Best(v, path, FindLargestString(v, path))
    decreases v, 0, 0
  {
    match v
    case Str(s) =>
      assert path[|path|..] == [];
      forall q | At(v, q).Some? ensures q == [] {}
      if !Preserved(path) {
        assert IsBest(v, path, [], |s|);
      }
    case Arr(items) =>
      SearchItems(v, 0, path, None);
      WholeIsBest(v, path, |items|, FindLargestString(v, path));
    case Obj(fields) =>
      SearchFields(v, 0, path, None);
      WholeIsBest(v, path, |fields|, FindLargestString(v, path));
    case _ =>
      forall q | At(v, q).Some? ensures q == [] {}
  }

  lemma WholeIsBest(v: Json, base: Path, n: nat, c: Option<Candidate>)
    requires !v.Str?
    requires forall s :: Child(v, s).Some? ==> Position(v, s) < n
    requires BestBelow(v, base, n, c)
    ensures Best(v, base, c)
  {
    forall q | Eligible(v, base, q) ensures q != [] && Position(v, q[0]) < n {}
  }

  lemma {:induction false} SearchItems(v: Json, i: nat, path: Path, largest: Option<Candidate>)
    requires Wf(v) && v.Arr? && i <= |v.items|
    requires BestBelow(v, path, i, largest)
    ensures BestBelow(v, path, |v.items|, FindInItems(v.items, i, path, largest))
    decreases v.items, 1, |v.items| - i
  {
    if i < |v.items| {
      SearchFindsFirstLongest(v.items[i], path + [Index(i)]);
      var candidate := FindLargestString(v.items[i], path + [Index(i)]);
      BestStep(v, path, i, Index(i), largest, candidate);
      SearchItems(v, i + 1, path, Larger(largest, candidate));
    }
  }

  lemma FieldStep(v: Json, i: nat)
    requires Wf(v) && v.Obj? && i < |v.fields|
    ensures Child(v, Key(v.fields[i].key)) == Some(v.fields[i].value) && Position(v, Key(v.fields[i].key)) == i
    ensures forall t :: Child(v, t).Some? && Position(v, t) == i ==> t == Key(v.fields[i].key)
  {
    assert Find(v.fields, v.fields[i].key) == i;
  }

  lemma {:induction false} BestField(v: Json, i: nat, path: Path, largest: Option<Candidate>)
    requires Wf(v) && v.Obj? && i < |v.fields| && BestBelow(v, path, i, largest)
    ensures BestBelow(v, path, i + 1, Larger(largest, FindLargestString(v.fields[i].value, path + [Key(v.fields[i].key)])))
    decreases v.fields, 0, 0
  {
    var step := Key(v.fields[i].key);
    FieldStep(v, i);
    SearchFindsFirstLongest(v.fields[i].value, path + [step]);
    BestStep(v, path, i, step, largest, FindLargestString(v.fields[i].value, path + [step]));
  }

  lemma {:induction false} SearchFields(v: Json, i: nat, path: Path, largest: Option<Candidate>)
    requires Wf(v) && v.Obj? && i <= |v.fields|
    requires BestBelow(v, path, i, largest)
    ensures BestBelow(v, path, |v.fields|, FindInFields(v.fields, i, path, largest))
    decreases v.fields, 1, |v.fields| - i
  {
    if i < |v.fields| {
      BestField(v, i, path, largest);
      SearchFields(v, i + 1, path, Larger(largest, FindLargestString(v.fields[i].value, path + [Key(v.fields[i].key)])));
    }
  }

  // ----- the cut -----

  /** `s.slice(-keep)`: a cut that should keep nothing keeps everything, because -0 is 0. */
  function SliceTail(s: JsString, keep: nat): JsString {
    if keep == 0 || keep >= |s| then s else s[|s| - keep..]
  }

  function TruncateAt(v: Json, p: Path, keep: nat): Json
    decreases |p|
  {
    if p == [] then (if v.Str? then Str(Prefix + SliceTail(v.s, keep)) else v)
    else
      match Child(v, p[0])
      case None => v
      case Some(c) => WithChild(v, p[0], TruncateAt(c, p[1..], keep))
  }

  /** A copy of `v` with the child at an existing step replaced. */
  function WithChild(v: Json, s: Step, c: Json): Json
    requires Child(v, s).Some?
  {
    match s
    case Index(i) => Arr(v.items[i := c])
    case Key(k) => Set(v, k, c)
  }

  lemma WithChildChild(v: Json, s: Step, c: Json, t: Step)
    requires Child(v, s).Some?
    ensures Child(WithChild(v, s, c), t) == if t == s then Some(c) else Child(v, t)
    ensures v.Arr? ==> |WithChild(v, s, c).items| == |v.items|
    ensures v.Obj? ==> |WithChild(v, s, c).fields| == |v.fields|
    ensures v.Obj? ==> forall i :: 0 <= i < |v.fields| ==> WithChild(v, s, c).fields[i].key == v.fields[i].key
  {
    if v.Obj? && t.Key? {
      GetSet(v, s.k, c, t.k);
    }
  }

  /** Same kind of value, same number of items, same keys in the same order. */
  predicate SameShape(v: Json, w: Json) {
    && (v.Null? <==> w.Null?) && (v.Bool? <==> w.Bool?) && (v.Num? <==> w.Num?) && (v.Str? <==> w.Str?)
    && (v.Arr? <==> w.Arr?) && (v.Arr? ==> |v.items| == |w.items|)
    && (v.Obj? <==> w.Obj?)
    && (v.Obj? ==> |v.fields| == |w.fields| && forall i :: 0 <= i < |v.fields| ==> v.fields[i].key == w.fields[i].key)
  }

  /** The cut reaches its leaf. */
  lemma {:induction false} TruncateReaches(v: Json, p: Path, keep: nat)
    requires At(v, p).Some? && At(v, p).value.Str?
    ensures At(TruncateAt(v, p, keep), p) == Some(Str(Prefix + SliceTail(At(v, p).value.s, keep)))
    decreases |p|
  {
    if p != [] {
      var c := Child(v, p[0]).value;
      TruncateReaches(c, p[1..], keep);
      WithChildChild(v, p[0], TruncateAt(c, p[1..], keep), p[0]);
    }
  }

  /**
   The cut touches nothing else: a path that is not on the way to the leaf reads the same
   value as before, and the containers on the way keep their shape.
   */
  lemma {:induction false} TruncateTouchesOneLeaf(v: Json, p: Path, keep: nat, q: Path)
    requires At(v, p).Some? && At(v, p).value.Str?
    ensures !(q <= p) ==> At(TruncateAt(v, p, keep), q) == At(v, q)
    ensures q <= p ==> At(v, q).Some? && At(TruncateAt(v, p, keep), q).Some?
                       && SameShape(At(v, q).value, At(TruncateAt(v, p, keep), q).value)
    decreases |p|
  {
    if p == [] {
      if q != [] {
        assert At(v, q) == None && At(TruncateAt(v, p, keep), q) == None;
      }
    } else {
      var c := Child(v, p[0]).value;
      var d := TruncateAt(c, p[1..], keep);
      WithChildChild(v, p[0], d, p[0]);
      if q != [] {
        WithChildChild(v, p[0], d, q[0]);
        if q[0] == p[0] {
          TruncateTouchesOneLeaf(c, p[1..], keep, q[1..]);
          assert q <= p <==> q[1..] <= p[1..];
        }
      }
    }
  }

  lemma {:induction false} TruncateKeepsWf(v: Json, p: Path, keep: nat)
    requires Wf(v)
    ensures Wf(TruncateAt(v, p, keep)) && SameShape(v, TruncateAt(v, p, keep))
    decreases |p|
  {
    if p != [] && Child(v, p[0]).Some? {
      var c := Child(v, p[0]).value;
      TruncateKeepsWf(c, p[1..], keep);
      WithChildChild(v, p[0], TruncateAt(c, p[1..], keep), p[0]);
    }
  }

  /** Strings under preserved keys survive every cut the search can ask for. */
  lemma PreservedStringsSurvive(v: Json, keep: nat, q: Path)
    requires Wf(v) && FindLargestString(v, []).Some?
    requires At(v, q).Some? && At(v, q).value.Str? && Preserved(q)
    ensures At(TruncateAt(v, FindLargestString(v, []).value.path, keep), q) == At(v, q)
  {
    SearchFindsFirstLongest(v, []);
    var c := FindLargestString(v, []).value;
    var p := c.path;
    assert p[0..] == p && [] + p == p;
    TruncateTouchesOneLeaf(v, p, keep, q);
    if q <= p && q != p {
      AtExtends(v, q, p);
    }
  }

  /** Nothing lies below a string. */
  lemma {:induction false} AtExtends(v: Json, q: Path, p: Path)
    requires q <= p && q != p && At(v, p).Some?
    ensures At(v, q).Some? && !At(v, q).value.Str?
    decreases |q|
  {
    if q != [] {
      AtExtends(Child(v, q[0]).value, q[1..], p[1..]);
    }
  }

  // ----- what a cut does to the serialized length -----

  lemma WithChildLength(v: Json, s: Step, c: Json)
    requires Child(v, s).Some?
    ensures SerializedLength(WithChild(v, s, c))
            == SerializedLength(v) - SerializedLength(Child(v, s).value) + SerializedLength(c)
  {
    match s
    case Index(i) => ItemsLengthUpdate(v.items, i, c);
    case Key(k) => SetLength(v, k, c);
  }

  lemma {:induction false} TruncateLength(v: Json, p: Path, keep: nat)
    requires At(v, p).Some? && At(v, p).value.Str?
    ensures var s := At(v, p).value.s;
            SerializedLength(TruncateAt(v, p, keep))
            == SerializedLength(v) - EscapedLength(s) + EscapedLength(Prefix + SliceTail(s, keep))
    decreases |p|
  {
    if p != [] {
      var c := Child(v, p[0]).value;
      TruncateLength(c, p[1..], keep);
      WithChildLength(v, p[0], TruncateAt(c, p[1..], keep));
    }
  }

  lemma {:induction false} PlainLength(s: JsString)
    requires forall i :: 0 <= i < |s| ==> UnitCost(s[i]) == 1 && !IsHigh(s[i])
    ensures EscapedLength(s) == |s|
  {
    if s != [] { PlainLength(s[1..]); }
  }

  predicate PlainChar(c: char) {
    ' ' <= c <= '~' && c != '"' && c != '\\'
  }

  lemma WordsArePlain(words: string)
    requires words == "[older response" + " input truncate" + "d to stay under" + " context limit]"
    ensures |words| == 60 && forall x :: x in words ==> PlainChar(x)
  {
    var a, b, c, d := "[older response", " input truncate", "d to stay under", " context limit]";
    assert forall x :: x in a ==> PlainChar(x);
    assert forall x :: x in b ==> PlainChar(x);
    assert forall x :: x in c ==> PlainChar(x);
    assert forall x :: x in d ==> PlainChar(x);
  }

  lemma UnitsOfPlain(words: string)
    requires forall x :: x in words ==> PlainChar(x)
    ensures EscapedLength(Units(words)) == |words|
    ensures forall i :: 0 <= i < |words| ==> !IsHigh(Units(words)[i])
  {
    var plain := Units(words);
    forall i | 0 <= i < |words| ensures UnitCost(plain[i]) == 1 && !IsHigh(plain[i]) {
      assert words[i] in words;
    }
    PlainLength(plain);
  }

  lemma NewlinesLength(tail: JsString)
    ensures EscapedLength([10, 10] + tail) == 4 + EscapedLength(tail)
  {
    assert ([10, 10] + tail)[1..] == [10] + tail;
    assert ([10] + tail)[1..] == tail;
  }

  /** The prefix costs its 62 units and 2 more for its newlines, whatever follows it. */
  lemma PrefixLength(tail: JsString)
    ensures |Prefix| == 62
    ensures EscapedLength(Prefix + tail) == |Prefix| + 2 + EscapedLength(tail)
  {
    var words := "[older response" + " input truncate" + "d to stay under" + " context limit]";
    assert INPUT_TRUNCATED_PREFIX == words + "\n\n";
    WordsArePlain(words);
    UnitsOfPlain(words);
    assert Prefix == Units(words) + [10, 10];
    assert Prefix + tail == Units(words) + ([10, 10] + tail);
    EscapedLengthSplit(Units(words), [10, 10] + tail);
    NewlinesLength(tail);
  }
}
