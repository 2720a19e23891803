/** The quoted-printable decoder of internal/smtp/parser.go: split into lines, trim
    carriage returns, drop a soft break, decode each line. It is proved equal to a
    one-pass decoder, and to undo every legal encoding (section 6.7 of RFC 2045). */
module QuotedPrintable {
  type byte = b: int | 0 <= b < 256
  type Bytes = seq<byte>

  const LF: byte := 10
  const CR: byte := 13
  const EQ: byte := 61

  // ----- The source's two phases -----

  function Unhex(c: byte): (v: int)
    ensures -1 <= v < 16
    ensures v >= 0 ==> c != LF && c != CR && c != EQ
  {
    if 48 <= c <= 57 then c - 48
    else if 65 <= c <= 70 then c - 65 + 10
    else if 97 <= c <= 102 then c - 97 + 10
    else -1
  }

  /** An escape stands at the start of s. */
  predicate Escape(s: Bytes) {
    |s| > 2 && s[0] == EQ && Unhex(s[1]) >= 0 && Unhex(s[2]) >= 0
  }

  function Escaped(s: Bytes): byte
    requires Escape(s)
  {
    Unhex(s[1]) * 16 + Unhex(s[2])
  }

  function LineText(line: Bytes): Bytes {
    if line == [] then []
    else if Escape(line) then [Escaped(line)] + LineText(line[3..])
    else [line[0]] + LineText(line[1..])
  }

  lemma Assoc(a: Bytes, b: Bytes, c: Bytes)
    ensures (a + b) + c == a + (b + c)
  {
  }

  lemma TextStep(line: Bytes, i: nat)
    requires i < |line|
    ensures Escape(line[i..]) <==> line[i] == EQ && i + 2 < |line| && Unhex(line[i + 1]) >= 0 && Unhex(line[i + 2]) >= 0
    ensures LineText(line[i..]) ==
      if Escape(line[i..]) then [Escaped(line[i..])] + LineText(line[i + 3..])
      else [line[i]] + LineText(line[i + 1..])
  {
    assert line[i..][1..] == line[i + 1..];
    if Escape(line[i..]) {
      assert line[i..][3..] == line[i + 3..];
    }
  }

  /** One more byte decoded: an escape takes three bytes, anything else one. */
  lemma DecodeStep(line: Bytes, i: nat, out: Bytes)
    requires i < |line| && out + LineText(line[i..]) == LineText(line)
    ensures Escape(line[i..]) <==> line[i] == EQ && i + 2 < |line| && Unhex(line[i + 1]) >= 0 && Unhex(line[i + 2]) >= 0
    ensures Escape(line[i..]) ==>
      out + [Unhex(line[i + 1]) * 16 + Unhex(line[i + 2])] + LineText(line[i + 3..]) == LineText(line)
    ensures !Escape(line[i..]) ==> out + [line[i]] + LineText(line[i + 1..]) == LineText(line)
  {
    TextStep(line, i);
    if Escape(line[i..]) {
      assert Escaped(line[i..]) == Unhex(line[i + 1]) * 16 + Unhex(line[i + 2]);
      Assoc(out, [Escaped(line[i..])], LineText(line[i + 3..]));
    } else {
      Assoc(out, [line[i]], LineText(line[i + 1..]));
    }
  }

  /** decodeQPLine. */
  method DecodeLine(line: Bytes) returns (out: Bytes)
    ensures out == LineText(line)
  {
    out := [];
    var i := 0;
    while i < |line|
      invariant 0 <= i <= |line|
      invariant out + LineText(line[i..]) == LineText(line)
    {
      DecodeStep(line, i, out);
      if line[i] == EQ && i + 2 < |line| {
        var hi, lo := Unhex(line[i + 1]), Unhex(line[i + 2]);
        if hi >= 0 && lo >= 0 {
          out := out + [hi * 16 + lo];
          i := i + 3;
          continue;
        }
      }
      out := out + [line[i]];
      i := i + 1;
    }
  }

  /** bytes.TrimRight with "\r". */
  function TrimCR(line: Bytes): (t: Bytes)
    ensures |t| <= |line| && t == line[..|t|]
    ensures t != [] ==> t[|t| - 1] != CR
    ensures forall i :: |t| <= i < |line| ==> line[i] == CR
  {
    if line != [] && line[|line| - 1] == CR then TrimCR(line[..|line| - 1]) else line
  }

  function FirstLF(s: Bytes): (k: nat)
    ensures k <= |s| && (k < |s| ==> s[k] == LF)
    ensures forall i :: 0 <= i < k ==> s[i] != LF
  {
    if s == [] || s[0] == LF then 0 else 1 + FirstLF(s[1..])
  }

  /** bytes.Split at every LF: one piece more than there are LFs. */
  function Lines(s: Bytes): (lines: seq<Bytes>)
    ensures lines != []
    decreases |s|
  {
    var k := FirstLF(s);
    if k == |s| then [s] else [s[..k]] + Lines(s[k + 1..])
  }

  predicate Soft(t: Bytes) {
    t != [] && t[|t| - 1] == EQ
  }

  /** The line without its carriage returns and its soft-break mark. */
  function Body(line: Bytes): Bytes {
    var t := TrimCR(line);
    if Soft(t) then t[..|t| - 1] else t
  }

  /** What one piece of the split contributes. */
  function LineOut(line: Bytes, last: bool): Bytes {
    LineText(Body(line)) + (if last || Soft(TrimCR(line)) then [] else [LF])
  }

  function LinesOut(lines: seq<Bytes>): Bytes
    requires lines != []
  {
    if |lines| == 1 then LineOut(lines[0], true)
    else LineOut(lines[0], false) + LinesOut(lines[1..])
  }

  lemma OutStep(lines: seq<Bytes>, i: nat)
    requires i < |lines|
    ensures LinesOut(lines[i..]) ==
      if i == |lines| - 1 then LineOut(lines[i], true)
      else LineOut(lines[i], false) + LinesOut(lines[i + 1..])
  {
    assert lines[i..][1..] == lines[i + 1..];
  }

  /** newQuotedPrintableReader. */
  method Decode(data: Bytes) returns (buf: Bytes)
    ensures buf == LinesOut(Lines(data))
  {
    buf := [];
    var lines := Lines(data);
    for i := 0 to |lines|
      invariant i < |lines| ==> buf + LinesOut(lines[i..]) == LinesOut(lines)
      invariant i == |lines| ==> buf == LinesOut(lines)
    {
      OutStep(lines, i);
      ghost var last := i == |lines| - 1;
      ghost var before := buf;
      var line := TrimCR(lines[i]);
      if |line| > 0 && line[|line| - 1] == EQ {
        var text := DecodeLine(line[..|line| - 1]);
        buf := buf + text;
        assert LineOut(lines[i], last) == text;
      } else {
        var text := DecodeLine(line);
        buf := buf + text;
        if i < |lines| - 1 {
          buf := buf + [LF];
          Assoc(before, text, [LF]);
        }
      }
      assert buf == before + LineOut(lines[i], last);
      if !last {
        Assoc(before, LineOut(lines[i], last), LinesOut(lines[i + 1..]));
      }
    }
  }

  // ----- The reference decoder -----

  /** How many carriage returns s starts with. */
  function CRs(s: Bytes): (k: nat)
    ensures k <= |s| && (k < |s| ==> s[k] != CR)
    ensures forall i :: 0 <= i < k ==> s[i] == CR
  {
    if s == [] || s[0] != CR then 0 else 1 + CRs(s[1..])
  }

  /** The line ends here: only carriage returns up to the next LF or the end. */
  predicate LineEnds(s: Bytes) {
    CRs(s) == |s| || s[CRs(s)] == LF
  }

  function NextLine(s: Bytes): (rest: Bytes)
    ensures s != [] ==> |rest| < |s|
    ensures |rest| <= |s|
  {
    if CRs(s) == |s| then [] else s[CRs(s) + 1..]
  }

  /** One look at a time, from left to right. */
  function OnePass(s: Bytes): (out: Bytes)
    ensures |out| <= |s|
    decreases |s|
  {
    if s == [] then []
    else if LineEnds(s) then (if CRs(s) == |s| then [] else [LF] + OnePass(NextLine(s)))
    else if s[0] == EQ && LineEnds(s[1..]) then OnePass(NextLine(s[1..]))
    else if Escape(s) then [Escaped(s)] + OnePass(s[3..])
    else [s[0]] + OnePass(s[1..])
  }

  lemma TrimUnique(line: Bytes, n: nat)
    requires n <= |line| && (n > 0 ==> line[n - 1] != CR)
    requires forall i :: n <= i < |line| ==> line[i] == CR
    ensures TrimCR(line) == line[..n]
  {
  }

  lemma CRsUnique(s: Bytes, n: nat)
    requires n <= |s| && (n < |s| ==> s[n] != CR)
    requires forall i :: 0 <= i < n ==> s[i] == CR
    ensures CRs(s) == n
  {
  }

  lemma TrimTail(line: Bytes, n: nat)
    requires n <= |TrimCR(line)|
    ensures TrimCR(line[n..]) == TrimCR(line)[n..]
  {
    var t, tail := TrimCR(line), line[n..];
    assert forall i :: 0 <= i < |tail| ==> tail[i] == line[n + i];
    TrimUnique(tail, |t| - n);
    assert tail[..|t| - n] == t[n..];
  }

  /** Taking n bytes off a line that reaches further. */
  lemma BodyTail(line: Bytes, n: nat)
    requires n <= |Body(line)|
    ensures Body(line[n..]) == Body(line)[n..]
    ensures Soft(TrimCR(line[n..])) <==> Soft(TrimCR(line))
  {
    TrimTail(line, n);
    SoftTail(TrimCR(line), n);
  }

  lemma SoftTail(t: Bytes, n: nat)
    requires n <= |t| && (Soft(t) ==> n < |t|)
    ensures Soft(t[n..]) <==> Soft(t)
    ensures Soft(t) ==> t[n..][..|t| - n - 1] == t[..|t| - 1][n..]
  {
    if n < |t| {
      assert t[n..][|t| - n - 1] == t[|t| - 1];
    }
  }

  /** A line that has only its break left, before an LF or the end of the data. */
  lemma BreakLeft(line: Bytes, tail: Bytes)
    requires tail == [] || tail[0] == LF
    requires TrimCR(line) == []
    ensures LineEnds(line + tail) && CRs(line + tail) == |line|
    ensures NextLine(line + tail) == if tail == [] then [] else tail[1..]
  {
    CRsUnique(line + tail, |line|);
  }

  /** A line with text left does not end here. */
  lemma TextLeft(line: Bytes, tail: Bytes)
    requires LF !in line && TrimCR(line) != []
    ensures !LineEnds(line + tail)
  {
    var s, j := line + tail, |TrimCR(line)| - 1;
    assert s[j] == line[j];
    assert CRs(s) <= j;
    assert s[CRs(s)] == line[CRs(s)];
  }

  /** An escape never straddles the end of a line. */
  lemma EscapeInLine(line: Bytes, tail: Bytes)
    requires line != [] && (tail == [] || tail[0] == LF)
    ensures Escape(line + tail) <==> Escape(line)
    ensures Escape(line) ==> Escaped(line + tail) == Escaped(line)
  {
    var s := line + tail;
    assert forall i :: 0 <= i < |line| ==> s[i] == line[i];
    assert tail != [] ==> s[|line|] == LF;
  }

  lemma EscapeInBody(line: Bytes)
    requires line != []
    ensures Escape(Body(line)) <==> Escape(line)
    ensures Escape(line) ==> Escaped(Body(line)) == Escaped(line)
  {
    var b := Body(line);
    assert b == line[..|b|];
    if Escape(line) {
      assert |TrimCR(line)| > 2;
      assert |b| > 2;
    }
  }

  lemma PassText(s: Bytes, n: nat)
    requires s != [] && !LineEnds(s) && !(s[0] == EQ && LineEnds(s[1..]))
    requires n == if Escape(s) then 3 else 1
    ensures OnePass(s) == [if Escape(s) then Escaped(s) else s[0]] + OnePass(s[n..])
  {
  }

  lemma OutText(line: Bytes, last: bool, n: nat)
    requires Body(line) != [] && n == if Escape(line) then 3 else 1
    ensures n <= |line|
    ensures LineOut(line, last) == [if Escape(line) then Escaped(line) else line[0]] + LineOut(line[n..], last)
  {
    EscapeInBody(line);
    BodyTail(line, n);
    assert LineText(Body(line)) == [if Escape(line) then Escaped(line) else line[0]] + LineText(Body(line)[n..]);
  }

  /** A line that is nothing but a soft-break mark. */
  lemma OnlyMark(line: Bytes)
    requires TrimCR(line) != [] && Body(line) == []
    ensures line == [EQ] + line[1..] && TrimCR(line[1..]) == []
  {
    assert |TrimCR(line)| == 1 && TrimCR(line)[0] == line[0];
    TrimUnique(line[1..], 0);
  }

  lemma PassSoft(s: Bytes)
    requires s != [] && !LineEnds(s) && s[0] == EQ && LineEnds(s[1..])
    ensures OnePass(s) == OnePass(NextLine(s[1..]))
  {
  }

  lemma MarkThenBreak(u: Bytes, tail: Bytes)
    requires TrimCR(u) == [] && (tail == [] || tail[0] == LF)
    ensures var s := [EQ] + (u + tail);
      !LineEnds(s) && s[1..] == u + tail && LineEnds(u + tail)
    ensures NextLine(u + tail) == if tail == [] then [] else tail[1..]
  {
    var s := [EQ] + (u + tail);
    CRsUnique(s, 0);
    BreakLeft(u, tail);
  }

  lemma MarkPass(u: Bytes, tail: Bytes)
    requires TrimCR(u) == [] && (tail == [] || tail[0] == LF)
    ensures OnePass([EQ] + (u + tail)) == if tail == [] then [] else OnePass(tail[1..])
  {
    MarkThenBreak(u, tail);
    PassSoft([EQ] + (u + tail));
  }

  /** A soft break joins the line with what follows. */
  lemma SoftPass(line: Bytes, tail: Bytes)
    requires TrimCR(line) != [] && Body(line) == []
    requires tail == [] || tail[0] == LF
    ensures OnePass(line + tail) == if tail == [] then [] else OnePass(tail[1..])
  {
    OnlyMark(line);
    MarkPass(line[1..], tail);
    Assoc([EQ], line[1..], tail);
  }

  lemma TextPass(line: Bytes, tail: Bytes)
    requires LF !in line && Body(line) != []
    requires tail == [] || tail[0] == LF
    ensures var n := if Escape(line) then 3 else 1;
      && n <= |line|
      && OnePass(line + tail) == [if Escape(line) then Escaped(line) else line[0]] + OnePass(line[n..] + tail)
  {
    var s, n := line + tail, if Escape(line) then 3 else 1;
    TextLeft(line, tail);
    EscapeInLine(line, tail);
    assert s[1..] == line[1..] + tail && s[n..] == line[n..] + tail && s[0] == line[0];
    if line[0] == EQ {
      assert |TrimCR(line)| > 1;
      assert TrimCR(line)[|TrimCR(line)| - 1] == line[1..][|TrimCR(line)| - 2];
      assert TrimCR(line[1..]) != [];
      TextLeft(line[1..], tail);
    }
    PassText(s, n);
  }

  lemma BlankPass(line: Bytes, tail: Bytes)
    requires TrimCR(line) == []
    requires tail == [] || tail[0] == LF
    ensures OnePass(line + tail) == if tail == [] then [] else [LF] + OnePass(tail[1..])
  {
    BreakLeft(line, tail);
  }

  lemma BlankOut(line: Bytes, last: bool)
    requires TrimCR(line) == []
    ensures LineOut(line, last) == if last then [] else [LF]
  {
  }

  lemma SoftOut(line: Bytes, last: bool)
    requires TrimCR(line) != [] && Body(line) == []
    ensures LineOut(line, last) == []
  {
  }

  /** The one pass does to a line, and what follows it, what the two phases do. */
  lemma {:induction false} LinePass(line: Bytes, tail: Bytes)
    requires LF !in line
    requires tail == [] || tail[0] == LF
    ensures OnePass(line + tail) == LineOut(line, tail == []) + (if tail == [] then [] else OnePass(tail[1..]))
    decreases |line|, 1
  {
    if TrimCR(line) == [] {
      BlankPass(line, tail);
      BlankOut(line, tail == []);
    } else if Body(line) == [] {
      SoftPass(line, tail);
      SoftOut(line, tail == []);
    } else {
      TextLinePass(line, tail);
    }
  }

  lemma TextLinePass(line: Bytes, tail: Bytes)
    requires LF !in line && Body(line) != []
    requires tail == [] || tail[0] == LF
    ensures OnePass(line + tail) == LineOut(line, tail == []) + (if tail == [] then [] else OnePass(tail[1..]))
    decreases |line|, 0
  {
    var n, last := if Escape(line) then 3 else 1, tail == [];
    ghost var x, rest := if Escape(line) then Escaped(line) else line[0], if last then [] else OnePass(tail[1..]);
    OutText(line, last, n);
    TextPass(line, tail);
    LinePass(line[n..], tail);
    Assoc([x], LineOut(line[n..], last), rest);
  }

  /** The line before the first LF, the LF, and what follows. */
  lemma CutAtLF(data: Bytes) returns (line: Bytes, tail: Bytes)
    requires FirstLF(data) < |data|
    ensures data == line + tail && LF !in line && tail != [] && tail[0] == LF
    ensures |tail| <= |data| && line == data[..FirstLF(data)] && tail[1..] == data[FirstLF(data) + 1..]
    ensures Lines(data) == [line] + Lines(tail[1..])
  {
    var k := FirstLF(data);
    line, tail := data[..k], data[k..];
    assert tail[1..] == data[k + 1..];
  }

  lemma NoLF(data: Bytes)
    requires FirstLF(data) == |data|
    ensures LF !in data && Lines(data) == [data]
  {
  }

  /** The two-phase decoder computes the one-pass decoding. */
  lemma {:induction false} TwoPhasesAreOnePass(data: Bytes)
    ensures LinesOut(Lines(data)) == OnePass(data)
    decreases |data|
  {
    if FirstLF(data) == |data| {
      NoLF(data);
      LinePass(data, []);
      assert data + [] == data;
    } else {
      var line, tail := CutAtLF(data);
      TwoPhasesAreOnePass(tail[1..]);
      LinePass(line, tail);
      LinesCons(line, Lines(tail[1..]));
    }
  }

  lemma LinesCons(line: Bytes, rest: seq<Bytes>)
    requires rest != []
    ensures LinesOut([line] + rest) == LineOut(line, false) + LinesOut(rest)
  {
    assert ([line] + rest)[1..] == rest;
  }

  // ----- Encodings -----

  predicate HexByte(c: byte) {
    48 <= c <= 57 || 65 <= c <= 70 || 97 <= c <= 102
  }

  /** The digit for v in either case: 0 to 9, then A to F or a to f. */
  function DigitOf(v: int, upper: bool): byte
    requires 0 <= v < 16
  {
    if v < 10 then 48 + v else if upper then 55 + v else 87 + v
  }

  lemma UnhexMeans(v: int, upper: bool, c: byte)
    requires 0 <= v < 16
    ensures Unhex(DigitOf(v, upper)) == v
    ensures Unhex(c) == v <==> c == DigitOf(v, true) || c == DigitOf(v, false)
    ensures Unhex(c) == -1 <==> !HexByte(c)
  {
  }

  function Returns(crs: nat): (s: Bytes)
    ensures |s| == crs && forall i :: 0 <= i < crs ==> s[i] == 13
  {
    seq(crs, _ => 13)
  }

  ghost predicate ReturnsUpTo(s: Bytes, k: nat) {
    k <= |s| && (forall i :: 0 <= i < k ==> s[i] == 13) && (k == |s| || s[k] == 10)
  }

  /** Nothing but carriage returns up to the next line feed or the end of the data. */
  ghost predicate EndsHere(s: Bytes) {
    exists k: nat :: ReturnsUpTo(s, k)
  }

  lemma EndsHereMeans(s: Bytes)
    ensures EndsHere(s) <==> LineEnds(s)
  {
    if k: nat :| ReturnsUpTo(s, k) {
      CRsUnique(s, k);
    }
    if LineEnds(s) {
      assert ReturnsUpTo(s, CRs(s));
    }
  }

  /** The pieces that data consists of: bytes that stand for themselves, escapes with the
      byte they stand for and the case of each digit, soft breaks and line breaks with
      their carriage returns, and what may stand at the very end. */
  datatype Token =
    | Literal(b: byte)
    | Hex(b: byte, upperHi: bool, upperLo: bool)
    | SoftBreak(crs: nat)
    | LineBreak(crs: nat)
    | LastSoftBreak(crs: nat)
    | LastReturns(crs: nat)

  /** A piece that means itself before `rest`. A carriage return stands for itself unless
      the line ends there; an equals sign too, unless two digits or the end of the line
      follow. */
  ghost predicate LegalBefore(t: Token, rest: Bytes) {
    match t
    case Literal(b) =>
      && b != 10 && (b == 13 ==> !EndsHere(rest))
      && (b == 61 ==> !EndsHere(rest) && !(|rest| >= 2 && HexByte(rest[0]) && HexByte(rest[1])))
    case Hex(_, _, _) => true
    case SoftBreak(_) => true
    case LineBreak(_) => true
    case LastSoftBreak(_) => rest == []
    case LastReturns(_) => rest == []
  }

  ghost predicate Legal(ts: seq<Token>) {
    ts == [] || (LegalBefore(ts[0], Render(ts[1..])) && Legal(ts[1..]))
  }

  function Meaning(t: Token): Bytes {
    match t
    case Literal(b) => [b]
    case Hex(b, _, _) => [b]
    case SoftBreak(_) => []
    case LineBreak(_) => [10]
    case LastSoftBreak(_) => []
    case LastReturns(_) => []
  }

  function Piece(t: Token): Bytes {
    match t
    case Literal(b) => [b]
    case Hex(b, upperHi, upperLo) => [61, DigitOf(b / 16, upperHi), DigitOf(b % 16, upperLo)]
    case SoftBreak(crs) => [61] + Returns(crs) + [10]
    case LineBreak(crs) => Returns(crs) + [10]
    case LastSoftBreak(crs) => [61] + Returns(crs)
    case LastReturns(crs) => Returns(crs)
  }

  /** The bytes that the pieces stand for. */
  function Value(ts: seq<Token>): Bytes {
    if ts == [] then [] else Meaning(ts[0]) + Value(ts[1..])
  }

  /** The data as it is transmitted. */
  function Render(ts: seq<Token>): Bytes {
    if ts == [] then [] else Piece(ts[0]) + Render(ts[1..])
  }

  lemma ReturnsEnd(crs: nat, rest: Bytes)
    ensures var s := Returns(crs) + [LF] + rest;
      LineEnds(s) && CRs(s) == crs && NextLine(s) == rest
  {
    var s := Returns(crs) + [LF] + rest;
    assert s[crs] == LF;
    CRsUnique(s, crs);
    assert s[crs + 1..] == rest;
  }

  lemma LastReturnsEnd(crs: nat)
    ensures LineEnds(Returns(crs)) && CRs(Returns(crs)) == crs && NextLine(Returns(crs)) == []
  {
    CRsUnique(Returns(crs), crs);
  }

  lemma LiteralDecodes(b: byte, rest: Bytes)
    requires LegalBefore(Literal(b), rest)
    ensures OnePass([b] + rest) == [b] + OnePass(rest)
  {
    var s := [b] + rest;
    assert s[1..] == rest;
    EndsHereMeans(rest);
    if b == CR {
      CRsUnique(s, 1 + CRs(rest));
    } else {
      CRsUnique(s, 0);
    }
    if b == EQ && |rest| >= 2 {
      UnhexMeans(0, true, rest[0]);
      UnhexMeans(0, true, rest[1]);
    }
    PassText(s, 1);
  }

  lemma HexEscapes(b: byte, hi: byte, lo: byte, rest: Bytes)
    requires Unhex(hi) == b / 16 && Unhex(lo) == b % 16
    ensures var s := [EQ, hi, lo] + rest;
      Escape(s) && Escaped(s) == b && s[3..] == rest && s[0] == EQ && s[1] == hi
  {
    var s := [EQ, hi, lo] + rest;
    assert s[1] == hi && s[2] == lo;
    assert b / 16 * 16 + b % 16 == b;
  }

  lemma EscapeDecodes(s: Bytes)
    requires Escape(s)
    ensures OnePass(s) == [Escaped(s)] + OnePass(s[3..])
  {
    CRsUnique(s, 0);
    CRsUnique(s[1..], 0);
    PassText(s, 3);
  }

  lemma HexDecodes(b: byte, upperHi: bool, upperLo: bool, rest: Bytes)
    ensures OnePass(Piece(Hex(b, upperHi, upperLo)) + rest) == [b] + OnePass(rest)
  {
    var hi, lo := DigitOf(b / 16, upperHi), DigitOf(b % 16, upperLo);
    UnhexMeans(b / 16, upperHi, hi);
    UnhexMeans(b % 16, upperLo, lo);
    HexEscapes(b, hi, lo, rest);
    EscapeDecodes([EQ, hi, lo] + rest);
  }

  lemma SoftDecodes(crs: nat, rest: Bytes)
    ensures OnePass(Piece(SoftBreak(crs)) + rest) == OnePass(rest)
  {
    var s := [EQ] + Returns(crs) + [LF] + rest;
    assert s[1..] == Returns(crs) + [LF] + rest;
    ReturnsEnd(crs, rest);
    CRsUnique(s, 0);
    PassSoft(s);
  }

  lemma LastSoftDecodes(crs: nat)
    ensures OnePass([EQ] + Returns(crs)) == []
  {
    var s := [EQ] + Returns(crs);
    assert s[1..] == Returns(crs);
    LastReturnsEnd(crs);
    CRsUnique(s, 0);
    PassSoft(s);
  }

  /** The first piece decodes to what it stands for. */
  lemma PieceDecodes(t: Token, rest: Bytes)
    requires LegalBefore(t, rest)
    ensures OnePass(Piece(t) + rest) == Meaning(t) + OnePass(rest)
  {
    match t
    case Literal(b) => LiteralDecodes(b, rest);
    case Hex(b, upperHi, upperLo) => HexDecodes(b, upperHi, upperLo, rest);
    case SoftBreak(crs) => SoftDecodes(crs, rest);
    case LineBreak(crs) => ReturnsEnd(crs, rest);
    case LastSoftBreak(crs) =>
      LastSoftDecodes(crs);
      assert [EQ] + Returns(crs) + [] == [EQ] + Returns(crs);
    case LastReturns(crs) =>
      LastReturnsEnd(crs);
      assert Returns(crs) + [] == Returns(crs);
  }

  /** Decoding gives what the pieces stand for. */
  lemma {:induction false} RoundTrip(ts: seq<Token>)
    requires Legal(ts)
    ensures LinesOut(Lines(Render(ts))) == Value(ts)
  {
    TwoPhasesAreOnePass(Render(ts));
    if ts != [] {
      RoundTrip(ts[1..]);
      TwoPhasesAreOnePass(Render(ts[1..]));
      PieceDecodes(ts[0], Render(ts[1..]));
    }
  }

  lemma LegalCons(t: Token, ts: seq<Token>)
    requires LegalBefore(t, Render(ts)) && Legal(ts)
    ensures Legal([t] + ts) && Render([t] + ts) == Piece(t) + Render(ts) && Value([t] + ts) == Meaning(t) + Value(ts)
  {
    assert ([t] + ts)[1..] == ts;
  }

  /** The first piece of any data. */
  lemma FirstPiece(s: Bytes) returns (t: Token, rest: Bytes)
    requires s != []
    ensures LegalBefore(t, rest) && Piece(t) + rest == s && |rest| < |s|
  {
    if LineEnds(s) {
      t, rest := BreakPiece(s);
    } else if s[0] == EQ && LineEnds(s[1..]) {
      var more, after := BreakSplits(s[1..]);
      t, rest := if more then SoftBreak(CRs(s[1..])) else LastSoftBreak(CRs(s[1..])), after;
      assert s == [EQ] + s[1..];
    } else if Escape(s) {
      t, rest := EscapePiece(s);
    } else {
      t, rest := Literal(s[0]), s[1..];
      LiteralStands(s);
    }
  }

  /** What follows the line feed, if there is one. */
  lemma BreakSplits(s: Bytes) returns (more: bool, rest: Bytes)
    requires LineEnds(s)
    ensures !more ==> rest == [] && s == Returns(CRs(s))
    ensures more ==> s == Returns(CRs(s)) + [LF] + rest
  {
    var n := CRs(s);
    assert s[..n] == Returns(n);
    more, rest := n < |s|, NextLine(s);
    if more {
      assert s == s[..n] + [s[n]] + s[n + 1..];
    }
  }

  lemma BreakPiece(s: Bytes) returns (t: Token, rest: Bytes)
    requires s != [] && LineEnds(s)
    ensures LegalBefore(t, rest) && Piece(t) + rest == s && |rest| < |s|
  {
    var more, after := BreakSplits(s);
    t, rest := if more then LineBreak(CRs(s)) else LastReturns(CRs(s)), after;
  }

  lemma EscapePiece(s: Bytes) returns (t: Token, rest: Bytes)
    requires Escape(s)
    ensures LegalBefore(t, rest) && Piece(t) + rest == s && |rest| < |s|
  {
    UnhexMeans(Unhex(s[1]), true, s[1]);
    UnhexMeans(Unhex(s[2]), true, s[2]);
    var b := Escaped(s);
    assert b / 16 == Unhex(s[1]) && b % 16 == Unhex(s[2]);
    t, rest := Hex(b, s[1] == DigitOf(b / 16, true), s[2] == DigitOf(b % 16, true)), s[3..];
    assert Piece(t) == s[..3];
  }

  lemma FeedEnds(s: Bytes)
    requires s != []
    ensures s[0] == LF ==> LineEnds(s)
    ensures s[0] == CR && LineEnds(s[1..]) ==> LineEnds(s)
  {
  }

  lemma LiteralStands(s: Bytes)
    requires s != [] && !LineEnds(s) && !(s[0] == EQ && LineEnds(s[1..])) && !Escape(s)
    ensures LegalBefore(Literal(s[0]), s[1..]) && Piece(Literal(s[0])) + s[1..] == s
  {
    EndsHereMeans(s[1..]);
    FeedEnds(s);
    if |s| > 2 {
      UnhexMeans(0, true, s[1]);
      UnhexMeans(0, true, s[2]);
    }
  }

  /** All data consists of such pieces, so that the round trip says what every input
      decodes to, malformed escapes and stray carriage returns included. */
  lemma {:induction false} EveryInput(data: Bytes) returns (ts: seq<Token>)
    ensures Legal(ts) && Render(ts) == data && LinesOut(Lines(data)) == Value(ts)
    decreases |data|
  {
    if data == [] {
      ts := [];
    } else {
      var t, rest := FirstPiece(data);
      var more := EveryInput(rest);
      LegalCons(t, more);
      ts := [t] + more;
    }
    RoundTrip(ts);
  }

  function Token1(b: byte, upper: bool): Token {
    if b == 10 then LineBreak(1)
    else if 33 <= b <= 126 && b != 61 then Literal(b)
    else Hex(b, upper, upper)
  }

  /** One encoding: printable bytes as they are, LF as CRLF, the rest escaped, with digits
      of the given case. */
  function Encode(data: Bytes, upper: bool): seq<Token> {
    if data == [] then [] else [Token1(data[0], upper)] + Encode(data[1..], upper)
  }

  lemma {:induction false} EncodeMeans(data: Bytes, upper: bool)
    ensures Legal(Encode(data, upper)) && Value(Encode(data, upper)) == data
  {
    if data != [] {
      EncodeMeans(data[1..], upper);
      LegalCons(Token1(data[0], upper), Encode(data[1..], upper));
      assert data == [data[0]] + data[1..];
    }
  }

  /** Every byte string comes back from an encoding, with digits of either case. */
  lemma EncodingExists(data: Bytes, upper: bool)
    ensures Legal(Encode(data, upper)) && Value(Encode(data, upper)) == data
    ensures LinesOut(Lines(Render(Encode(data, upper)))) == data
  {
    EncodeMeans(data, upper);
    RoundTrip(Encode(data, upper));
  }

  /** Decoding never lengthens its input. */
  lemma NeverLonger(data: Bytes)
    ensures |LinesOut(Lines(data))| <= |data|
  {
    TwoPhasesAreOnePass(data);
  }
}
