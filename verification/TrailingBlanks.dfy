/** Blanks at the end of a line, which the decoder of internal/smtp/parser.go keeps and
    section 6.7 of RFC 2045 has removed: where the two agree, and where not. */
module TrailingBlanks {
  import opened QuotedPrintable

  predicate Blank(b: byte) {
    b == 32 || b == 9
  }

  function StripBlanks(t: Bytes): (u: Bytes)
    ensures |u| <= |t| && u == t[..|u|]
    ensures u != [] ==> !Blank(u[|u| - 1])
    ensures forall i :: |u| <= i < |t| ==> Blank(t[i])
  {
    if t != [] && Blank(t[|t| - 1]) then StripBlanks(t[..|t| - 1]) else t
  }

  /** What a line contributes by rule (3) of section 6.7 of RFC 2045: blanks at its end
      go first, so that a soft-break mark may be followed by padding. */
  function StrictOut(line: Bytes, last: bool): Bytes {
    var u := StripBlanks(TrimCR(line));
    if Soft(u) then LineText(u[..|u| - 1])
    else LineText(u) + (if last then [] else [LF])
  }

  function StrictLinesOut(lines: seq<Bytes>): Bytes
    requires lines != []
  {
    if |lines| == 1 then StrictOut(lines[0], true)
    else StrictOut(lines[0], false) + StrictLinesOut(lines[1..])
  }

  /** The line, after its carriage returns, ends in a blank. */
  predicate EndsInBlank(line: Bytes) {
    var t := TrimCR(line);
    t != [] && Blank(t[|t| - 1])
  }

  /** A space or a tab, and after it carriage returns only. */
  lemma EndsInBlankMeans(line: Bytes)
    ensures EndsInBlank(line) <==> exists k :: 0 <= k < |line| && line[k] in {32, 9} && forall j :: k < j < |line| ==> line[j] == 13
  {
    var t := TrimCR(line);
    if EndsInBlank(line) {
      assert line[|t| - 1] in {32, 9};
    }
    if k :| 0 <= k < |line| && line[k] in {32, 9} && forall j :: k < j < |line| ==> line[j] == 13 {
      TrimUnique(line, k + 1);
    }
  }

  /** No escape reaches over a byte that is not a hexadecimal digit. */
  lemma {:induction false} TextConcat(u: Bytes, v: Bytes)
    requires v != [] ==> Unhex(v[0]) < 0
    ensures LineText(u + v) == LineText(u) + LineText(v)
  {
    if u == [] {
      assert u + v == v;
    } else {
      var n := if Escape(u) then 3 else 1;
      EscapeFits(u, v);
      assert (u + v)[n..] == u[n..] + v;
      TextConcat(u[n..], v);
      Assoc([if Escape(u) then Escaped(u) else u[0]], LineText(u[n..]), LineText(v));
    }
  }

  lemma EscapeFits(u: Bytes, v: Bytes)
    requires u != [] && (v != [] ==> Unhex(v[0]) < 0)
    ensures Escape(u + v) <==> Escape(u)
    ensures Escape(u) ==> Escaped(u + v) == Escaped(u)
    ensures (u + v)[0] == u[0]
  {
    var s := u + v;
    assert forall i :: 0 <= i < |u| ==> s[i] == u[i];
    assert v != [] ==> s[|u|] == v[0];
  }

  lemma {:induction false} BlankText(tail: Bytes)
    requires forall b :: b in tail ==> Blank(b)
    ensures LineText(tail) == tail
  {
    if tail != [] {
      assert tail[0] in tail;
      BlankText(tail[1..]);
      assert tail == [tail[0]] + tail[1..];
    }
  }

  /** Taking a soft-break mark away shortens the text by the mark. */
  lemma MarkIsText(u: Bytes)
    ensures Soft(u) ==> |LineText(u)| == |LineText(u[..|u| - 1])| + 1
  {
    if Soft(u) {
      var body := u[..|u| - 1];
      assert u == body + [EQ];
      TextConcat(body, [EQ]);
      assert LineText([EQ]) == [EQ] + LineText([EQ][1..]);
    }
  }

  /** The text of a line that ends in blanks is the text without them, and then they. */
  lemma BlanksAreText(u: Bytes, tail: Bytes)
    requires forall b :: b in tail ==> Blank(b)
    ensures LineText(u + tail) == LineText(u) + tail
  {
    assert tail != [] ==> tail[0] in tail;
    TextConcat(u, tail);
    BlankText(tail);
  }

  lemma StripSplits(t: Bytes) returns (tail: Bytes)
    ensures t == StripBlanks(t) + tail && forall b :: b in tail ==> Blank(b)
    ensures tail != [] <==> t != [] && Blank(t[|t| - 1])
  {
    var n := |StripBlanks(t)|;
    tail := t[n..];
    assert t == t[..n] + t[n..];
  }

  lemma {:induction false} StripUnique(u: Bytes, tail: Bytes)
    requires (u != [] ==> !Blank(u[|u| - 1])) && forall b :: b in tail ==> Blank(b)
    ensures StripBlanks(u + tail) == u
  {
    if tail != [] {
      assert tail[|tail| - 1] in tail;
      assert (u + tail)[..|u + tail| - 1] == u + tail[..|tail| - 1];
      StripUnique(u, tail[..|tail| - 1]);
    } else {
      assert u + tail == u;
    }
  }

  lemma StripsNothing(line: Bytes, last: bool)
    requires !EndsInBlank(line)
    ensures StrictOut(line, last) == LineOut(line, last)
  {
    assert StripBlanks(TrimCR(line)) == TrimCR(line);
  }

  lemma StripsSome(line: Bytes, last: bool)
    requires EndsInBlank(line)
    ensures |StrictOut(line, last)| < |LineOut(line, last)|
  {
    var u := StripBlanks(TrimCR(line));
    var tail := StripSplits(TrimCR(line));
    BlanksAreText(u, tail);
    OutOfBlanks(line, last);
    MarkIsText(u);
  }

  lemma OutOfBlanks(line: Bytes, last: bool)
    requires EndsInBlank(line)
    ensures LineOut(line, last) == LineText(TrimCR(line)) + (if last then [] else [LF])
  {
  }

  lemma {:induction false} LinesDiffer(lines: seq<Bytes>)
    requires lines != []
    ensures |StrictLinesOut(lines)| <= |LinesOut(lines)|
    ensures (exists line :: line in lines && EndsInBlank(line)) ==> |StrictLinesOut(lines)| < |LinesOut(lines)|
    ensures (forall line :: line in lines ==> !EndsInBlank(line)) ==> StrictLinesOut(lines) == LinesOut(lines)
  {
    assert lines == [lines[0]] + lines[1..];
    if EndsInBlank(lines[0]) {
      StripsSome(lines[0], |lines| == 1);
    } else {
      StripsNothing(lines[0], |lines| == 1);
    }
    if |lines| > 1 {
      LinesDiffer(lines[1..]);
    }
  }

  /** The decoder agrees with rule (3) exactly on data without a line that ends in a
      blank; elsewhere its output is longer. */
  lemma BlanksKept(data: Bytes)
    ensures LinesOut(Lines(data)) == StrictLinesOut(Lines(data))
            <==> forall line :: line in Lines(data) ==> !EndsInBlank(line)
  {
    LinesDiffer(Lines(data));
  }

  /** One line of data, with blanks at its end: the code keeps them and does not see a
      soft-break mark before them. */
  lemma BlankTail(u: Bytes, tail: Bytes)
    requires forall i :: 0 <= i < |u + tail| ==> (u + tail)[i] != LF && (u + tail)[i] != CR
    requires (u != [] ==> !Blank(u[|u| - 1])) && tail != [] && forall b :: b in tail ==> Blank(b)
    ensures LinesOut(Lines(u + tail)) == LineText(u) + tail
    ensures StrictLinesOut(Lines(u + tail)) == LineText(if Soft(u) then u[..|u| - 1] else u)
  {
    var line := u + tail;
    WholeLine(line);
    LastIsBlank(u, tail);
    BlanksAreText(u, tail);
    StripUnique(u, tail);
  }

  lemma LastIsBlank(u: Bytes, tail: Bytes)
    requires tail != [] && forall b :: b in tail ==> Blank(b)
    ensures !Soft(u + tail)
  {
    assert (u + tail)[|u + tail| - 1] == tail[|tail| - 1] && tail[|tail| - 1] in tail;
  }

  lemma WholeLine(line: Bytes)
    requires forall i :: 0 <= i < |line| ==> line[i] != LF && line[i] != CR
    ensures Lines(line) == [line] && TrimCR(line) == line
    ensures LinesOut(Lines(line)) == LineText(if Soft(line) then line[..|line| - 1] else line)
    ensures StrictLinesOut(Lines(line)) == StrictOut(line, true)
  {
  }

  /** For one, "A " stays "A " and "A= " stays "A= ", where rule (3) gives "A". */
  lemma BlanksKeptAt(plain: Bytes, padded: Bytes)
    requires plain == [65, 32] && padded == [65, EQ, 32]
    ensures LinesOut(Lines(plain)) == plain && StrictLinesOut(Lines(plain)) == [65]
    ensures LinesOut(Lines(padded)) == padded && StrictLinesOut(Lines(padded)) == [65]
  {
    assert plain == [65] + [32] && padded == [65, EQ] + [32];
    BlankTail([65], [32]);
    BlankTail([65, EQ], [32]);
    assert LineText([65]) == [65] by { assert [65 as byte][1..] == []; }
    assert [65, EQ][..1] == [65] && [65, EQ][1..] == [EQ];
    assert LineText([EQ]) == [EQ] by { assert [EQ][1..] == []; }
  }
}
