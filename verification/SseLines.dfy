/**
 The incremental line reader of the usage meter (cpx/usage-middleware.ts): what it
 processes does not depend on how the text was cut into reads.
 */
module SseLines {
  import opened Common

  const NEWLINE := '\n'

  /** `text.indexOf("\n")`, or the length when there is none. */
  function FirstNewline(text: string): (n: nat)
    ensures n <= |text|
    ensures n < |text| ==> text[n] == NEWLINE
    ensures forall i :: 0 <= i < n ==> text[i] != NEWLINE
  {
    if text == "" || text[0] == NEWLINE then 0 else 1 + FirstNewline(text[1..])
  }

  /** The newline-terminated lines of a text, in order, without their newlines. */
  function Lines(text: string): seq<string>
    decreases |text|
  {
    var n := FirstNewline(text);
    if n == |text| then [] else [text[..n]] + Lines(text[n + 1..])
  }

  /** What follows the last newline. */
  function Rest(text: string): string
    decreases |text|
  {
    var n := FirstNewline(text);
    if n == |text| then text else Rest(text[n + 1..])
  }

  function Glue(lines: seq<string>): string {
    if lines == [] then "" else lines[0] + [NEWLINE] + Glue(lines[1..])
  }

  predicate OneLine(s: string) {
    forall i :: 0 <= i < |s| ==> s[i] != NEWLINE
  }

  /** A text that starts with a complete line. */
  lemma FirstLine(a: string, b: string)
    requires OneLine(a)
    ensures Lines(a + [NEWLINE] + b) == [a] + Lines(b)
    ensures Rest(a + [NEWLINE] + b) == Rest(b)
  {
    var t := a + [NEWLINE] + b;
    assert t[|a|] == NEWLINE;
    assert forall i :: 0 <= i < |a| ==> t[i] == a[i];
    assert FirstNewline(t) == |a|;
    assert t[..|a|] == a && t[|a| + 1..] == b;
  }

  lemma GlueFirst(line: string, lines: seq<string>, rest: string)
    ensures Glue([line] + lines) + rest == line + [NEWLINE] + (Glue(lines) + rest)
  {
    assert ([line] + lines)[0] == line && ([line] + lines)[1..] == lines;
    Associative(line + [NEWLINE], Glue(lines), rest);
  }

  lemma {:induction false} LinesAreLines(text: string)
    ensures forall l <- Lines(text) :: OneLine(l)
    ensures OneLine(Rest(text))
    decreases |text|
  {
    var n := FirstNewline(text);
    if n < |text| { LinesAreLines(text[n + 1..]); }
  }

  lemma {:induction false} LinesGiveText(text: string)
    ensures Glue(Lines(text)) + Rest(text) == text
    decreases |text|
  {
    var n := FirstNewline(text);
    if n < |text| {
      var line, tail := text[..n], text[n + 1..];
      LinesGiveText(tail);
      assert text == line + [NEWLINE] + tail;
      FirstLine(line, tail);
      GlueFirst(line, Lines(tail), Rest(tail));
    }
  }

  /** `Lines` and `Rest` take a text apart completely: glued together again they are the text. */
  lemma LinesGlue(text: string)
    ensures Glue(Lines(text)) + Rest(text) == text
    ensures forall l <- Lines(text) :: OneLine(l)
    ensures OneLine(Rest(text))
  {
    LinesGiveText(text);
    LinesAreLines(text);
  }

  /** And there is no other way to take it apart. */
  lemma {:induction false} LinesUnique(lines: seq<string>, rest: string)
    requires OneLine(rest) && forall l <- lines :: OneLine(l)
    ensures Lines(Glue(lines) + rest) == lines && Rest(Glue(lines) + rest) == rest
  {
    if lines == [] {
      assert Glue(lines) + rest == rest;
    } else {
      assert lines[0] in lines;
      LinesUnique(lines[1..], rest);
      var tail := Glue(lines[1..]) + rest;
      assert Glue(lines) + rest == lines[0] + [NEWLINE] + tail;
      FirstLine(lines[0], tail);
    }
  }

  /** Reading `a` and then `b` gives the lines of `a`, then those of what was left of `a` with `b` behind it. */
  lemma {:induction false} LinesConcat(a: string, b: string)
    ensures Lines(a + b) == Lines(a) + Lines(Rest(a) + b)
    ensures Rest(a + b) == Rest(Rest(a) + b)
    decreases |a|
  {
    var n := FirstNewline(a);
    if n < |a| {
      ConcatStep(a, b, a[..n], a[n + 1..]);
      LinesConcat(a[n + 1..], b);
      Associative([a[..n]], Lines(a[n + 1..]), Lines(Rest(a) + b));
    }
  }

  lemma Shift(line: string, tail: string, b: string)
    ensures line + [NEWLINE] + tail + b == line + [NEWLINE] + (tail + b)
  {
  }

  lemma ConcatStep(a: string, b: string, line: string, tail: string)
    requires OneLine(line) && a == line + [NEWLINE] + tail
    ensures Lines(a) == [line] + Lines(tail) && Lines(a + b) == [line] + Lines(tail + b)
    ensures Rest(a) == Rest(tail) && Rest(a + b) == Rest(tail + b)
  {
    FirstLine(line, tail);
    Shift(line, tail, b);
    FirstLine(line, tail + b);
  }

  lemma {:induction false} ConcatSnoc(pieces: seq<string>, piece: string)
    ensures Concat(pieces + [piece]) == Concat(pieces) + piece
  {
    if pieces == [] {
      assert [] + [piece] == [piece] && [piece][1..] == [];
    } else {
      ConcatSnoc(pieces[1..], piece);
      assert (pieces + [piece])[0] == pieces[0] && (pieces + [piece])[1..] == pieces[1..] + [piece];
    }
  }
}
