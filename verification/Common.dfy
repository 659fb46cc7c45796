/** Small datatypes and sequence facts shared by the other modules. */
module Common {

  datatype Option<+T> = None | Some(value: T) {
    function GetOr(default: T): T {
      match this
      case Some(v) => v
      case None => default
    }
  }

  /** The pieces of text, in order, as one text. */
  function Concat(pieces: seq<string>): string {
    if pieces == [] then "" else pieces[0] + Concat(pieces[1..])
  }

  /** `Array.prototype.join`. */
  function Join(pieces: seq<string>, separator: string): string {
    if pieces == [] then ""
    else if |pieces| == 1 then pieces[0]
    else pieces[0] + separator + Join(pieces[1..], separator)
  }

  lemma Associative<T>(a: seq<T>, b: seq<T>, c: seq<T>)
    ensures a + b + c == a + (b + c)
  {
  }

  /** Head and tail of a concatenation. */
  lemma HeadTail<T>(a: seq<T>, b: seq<T>)
    requires a != []
    ensures (a + b)[0] == a[0] && (a + b)[1..] == a[1..] + b
  {
  }

  predicate Unique<T(==)>(s: seq<T>) {
    forall i, j :: 0 <= i < j < |s| ==> s[i] != s[j]
  }

  // ----- saying what a filter, a join and a flattening give, by position -----

  /** `at` lists the positions of the wanted elements of `s`, in order. */
  ghost predicate Selects<T(!new)>(s: seq<T>, want: T -> bool, at: seq<nat>) {
    AllWanted(s, want, at) && Increasing(at) && AllListed(s, want, at)
  }

  predicate AllWanted<T(!new)>(s: seq<T>, want: T -> bool, at: seq<nat>) {
    forall k :: 0 <= k < |at| ==> at[k] < |s| && want(s[at[k]])
  }

  predicate Increasing(at: seq<nat>) {
    forall k, m :: 0 <= k < m < |at| ==> at[k] < at[m]
  }

  predicate AllListed<T(!new)>(s: seq<T>, want: T -> bool, at: seq<nat>) {
    forall i {:trigger i in at} :: 0 <= i < |s| && want(s[i]) ==> i in at
  }

  function Later(at: seq<nat>, shift: nat): (r: seq<nat>)
    ensures |r| == |at| && forall k :: 0 <= k < |at| ==> r[k] == at[k] + shift
  {
    seq(|at|, k requires 0 <= k < |at| => at[k] + shift)
  }

  /** `at` is `rest` one further on, behind the first element's position when that is wanted. */
  ghost predicate OneFurther(n: nat, rest: seq<nat>, at: seq<nat>) {
    && n <= 1 && |at| == n + |rest| && (n == 1 ==> at[0] == 0)
    && forall k :: n <= k < |at| ==> at[k] == rest[k - n] + 1
  }

  function Further(n: nat, rest: seq<nat>): (at: seq<nat>)
    requires n <= 1
    ensures OneFurther(n, rest, at)
  {
    if n == 1 then [0] + Later(rest, 1) else Later(rest, 1)
  }

  lemma PositionIsListed(n: nat, rest: seq<nat>, at: seq<nat>, i: nat)
    requires OneFurther(n, rest, at) && i in rest
    ensures i + 1 in at
  {
    var k :| 0 <= k < |rest| && rest[k] == i;
    assert at[n + k] == i + 1;
  }

  lemma FurtherIsIncreasing(n: nat, rest: seq<nat>, at: seq<nat>)
    requires OneFurther(n, rest, at) && Increasing(rest)
    ensures Increasing(at)
  {
  }

  lemma FurtherIsListed<T(!new)>(s: seq<T>, want: T -> bool, n: nat, rest: seq<nat>, at: seq<nat>)
    requires s != [] && AllListed(s[1..], want, rest) && OneFurther(n, rest, at) && (want(s[0]) ==> n == 1)
    ensures AllListed(s, want, at)
  {
    forall i | 0 <= i < |s| && want(s[i]) ensures i in at {
      if i == 0 {
        assert at[0] == 0;
      } else {
        assert s[1..][i - 1] == s[i] && i - 1 in rest;
        PositionIsListed(n, rest, at, i - 1);
      }
    }
  }

  lemma FurtherIsWanted<T(!new)>(s: seq<T>, want: T -> bool, n: nat, rest: seq<nat>, at: seq<nat>)
    requires s != [] && AllWanted(s[1..], want, rest) && OneFurther(n, rest, at) && (n == 1 ==> want(s[0]))
    ensures AllWanted(s, want, at)
  {
    forall k | n <= k < |at| ensures at[k] < |s| && want(s[at[k]]) {
      assert rest[k - n] < |s[1..]| && want(s[1..][rest[k - n]]);
    }
  }

  /** The positions of the wanted elements, from those of the elements after the first. */
  lemma SelectsMore<T(!new)>(s: seq<T>, want: T -> bool, rest: seq<nat>) returns (at: seq<nat>, n: nat)
    requires s != [] && Selects(s[1..], want, rest)
    ensures Selects(s, want, at)
    ensures n == (if want(s[0]) then 1 else 0) && |at| == n + |rest| && (n == 1 ==> at[0] == 0)
    ensures forall k :: n <= k < |at| ==> at[k] == rest[k - n] + 1
  {
    n := if want(s[0]) then 1 else 0;
    at := Further(n, rest);
    FurtherIsIncreasing(n, rest, at);
    FurtherIsListed(s, want, n, rest, at);
    FurtherIsWanted(s, want, n, rest, at);
  }

  predicate Matches<T(!new), U(!new)>(s: seq<T>, of: (T, U) -> bool, at: seq<nat>, out: seq<U>) {
    |out| == |at| && forall k :: 0 <= k < |at| ==> at[k] < |s| && of(s[at[k]], out[k])
  }

  /** `out` has one element for every wanted element of `s`, in order, each standing to it as `of` says. */
  ghost predicate Filtered<T(!new), U(!new)>(s: seq<T>, want: T -> bool, of: (T, U) -> bool, out: seq<U>) {
    exists at :: Selects(s, want, at) && Matches(s, of, at, out)
  }

  lemma FilteredNone<T(!new), U(!new)>(want: T -> bool, of: (T, U) -> bool)
    ensures Filtered([], want, of, [])
  {
    assert Selects([], want, []) && Matches([], of, [], []);
  }

  lemma FilteredMore<T(!new), U(!new)>(s: seq<T>, want: T -> bool, of: (T, U) -> bool, head: seq<U>, tail: seq<U>)
    requires s != [] && Filtered(s[1..], want, of, tail)
    requires if want(s[0]) then |head| == 1 && of(s[0], head[0]) else head == []
    ensures Filtered(s, want, of, head + tail)
  {
    var rest :| Selects(s[1..], want, rest) && Matches(s[1..], of, rest, tail);
    var at, n := SelectsMore(s, want, rest);
    MatchesMore(s, of, n, rest, at, head, tail);
  }

  lemma MatchesMore<T(!new), U(!new)>(s: seq<T>, of: (T, U) -> bool, n: nat, rest: seq<nat>, at: seq<nat>, head: seq<U>, tail: seq<U>)
    requires s != [] && Matches(s[1..], of, rest, tail) && OneFurther(n, rest, at)
    requires |head| == n && (n == 1 ==> of(s[0], head[0]))
    ensures Matches(s, of, at, head + tail)
  {
    var out := head + tail;
    forall k | 0 <= k < |at| ensures at[k] < |s| && of(s[at[k]], out[k]) {
      if k >= n {
        assert rest[k - n] < |s[1..]| && of(s[1..][rest[k - n]], tail[k - n]);
        assert s[1..][rest[k - n]] == s[at[k]] && out[k] == tail[k - n];
      }
    }
  }

  /** `text` is made of the pieces, in order, with one separator between neighbours and nothing else. */
  ghost predicate Joined(text: string, pieces: seq<string>, separator: string) {
    if pieces == [] then text == "" else exists soFar :: JoinedUp(text, pieces, separator, soFar)
  }

  /** `soFar[k]` is the text up to and with the k-th piece. */
  predicate JoinedUp(text: string, pieces: seq<string>, separator: string, soFar: seq<string>) {
    && |soFar| == |pieces| > 0
    && soFar[0] == pieces[0] && soFar[|soFar| - 1] == text
    && forall k :: 0 < k < |soFar| ==> soFar[k] == soFar[k - 1] + separator + pieces[k]
  }

  lemma {:induction false} JoinSnoc(pieces: seq<string>, piece: string, separator: string)
    requires pieces != []
    ensures Join(pieces + [piece], separator) == Join(pieces, separator) + separator + piece
  {
    HeadTail(pieces, [piece]);
    if |pieces| == 1 {
      assert pieces[1..] + [piece] == [piece];
    } else {
      JoinSnoc(pieces[1..], piece, separator);
      var first, rest := pieces[0] + separator, Join(pieces[1..], separator);
      Associative(first, rest + separator, piece);
      Associative(first, rest, separator);
    }
  }

  lemma JoinIsJoined(pieces: seq<string>, separator: string)
    ensures Joined(Join(pieces, separator), pieces, separator)
  {
    if pieces != [] {
      var soFar := seq(|pieces|, k requires 0 <= k < |pieces| => Join(pieces[..k + 1], separator));
      assert pieces[..|pieces|] == pieces && pieces[..1] == [pieces[0]];
      forall k | 0 < k < |soFar| ensures soFar[k] == soFar[k - 1] + separator + pieces[k] {
        assert pieces[..k + 1] == pieces[..k] + [pieces[k]];
        JoinSnoc(pieces[..k], pieces[k], separator);
      }
      assert JoinedUp(Join(pieces, separator), pieces, separator, soFar);
    }
  }

  /** The parts one after the other. */
  function Flat<T>(parts: seq<seq<T>>): seq<T> {
    if parts == [] then [] else parts[0] + Flat(parts[1..])
  }

  lemma FlatMore<T>(head: seq<T>, parts: seq<seq<T>>)
    ensures Flat([head] + parts) == head + Flat(parts)
  {
    assert ([head] + parts)[1..] == parts;
  }

  lemma {:induction false} FlatSnoc<T>(parts: seq<seq<T>>, last: seq<T>)
    ensures Flat(parts + [last]) == Flat(parts) + last
  {
    if parts == [] {
      assert [] + [last] == [last] && [last][1..] == [];
    } else {
      FlatSnoc(parts[1..], last);
      HeadTail(parts, [last]);
      Associative(parts[0], Flat(parts[1..]), last);
    }
  }
}
