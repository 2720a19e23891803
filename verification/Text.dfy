/** The string functions that the authentication code uses. Case and blanks are
    those of ASCII. */
module Text {
  import opened Models

  function LowerChar(c: char): char {
    if 'A' <= c <= 'Z' then c - 'A' + 'a' else c
  }

  function Lower(s: string): (t: string)
    ensures |t| == |s| && forall i :: 0 <= i < |s| ==> t[i] == LowerChar(s[i])
  {
    if s == "" then "" else [LowerChar(s[0])] + Lower(s[1..])
  }

  /** The same letter in either case, or the same character. */
  predicate Alike(c: char, d: char) {
    || c == d
    || (65 <= c as int <= 90 && d as int == c as int + 32)
    || (65 <= d as int <= 90 && c as int == d as int + 32)
  }

  lemma AlikeMeans(c: char, d: char)
    ensures LowerChar(c) == LowerChar(d) <==> Alike(c, d)
    ensures !(65 <= LowerChar(c) as int <= 90)
  {
  }

  /** Two texts are the same in lower case exactly if they differ at most in the case of
      ASCII letters, and no capital is left. */
  lemma {:induction false} LowerMeans(s: string, t: string)
    ensures Lower(s) == Lower(t) <==> |s| == |t| && forall i :: 0 <= i < |s| ==> Alike(s[i], t[i])
    ensures forall i :: 0 <= i < |s| ==> !(65 <= Lower(s)[i] as int <= 90)
  {
    forall i | 0 <= i < |s| ensures !(65 <= Lower(s)[i] as int <= 90) {
      AlikeMeans(s[i], s[i]);
    }
    if |s| == |t| {
      forall i | 0 <= i < |s| ensures Lower(s)[i] == Lower(t)[i] <==> Alike(s[i], t[i]) {
        AlikeMeans(s[i], t[i]);
      }
      if forall i :: 0 <= i < |s| ==> Alike(s[i], t[i]) {
        assert forall i :: 0 <= i < |s| ==> Lower(s)[i] == Lower(t)[i];
      }
    }
  }

  lemma LowerIdempotent(s: string)
    ensures Lower(Lower(s)) == Lower(s)
  {
  }

  lemma LowerConcat(s: string, t: string)
    ensures Lower(s + t) == Lower(s) + Lower(t)
  {
  }

  /** strings.Split at one character: one part more than there are separators. */
  function Split(s: string, sep: char): (parts: seq<string>)
    ensures parts != []
  {
    if s == "" then [""]
    else if s[0] == sep then [""] + Split(s[1..], sep)
    else
      var rest := Split(s[1..], sep);
      [[s[0]] + rest[0]] + rest[1..]
  }

  function Join(parts: seq<string>, sep: char): string
    requires parts != []
  {
    if |parts| == 1 then parts[0] else parts[0] + [sep] + Join(parts[1..], sep)
  }

  lemma JoinTwo(a: string, b: string, sep: char)
    ensures Join([a, b], sep) == a + [sep] + b
  {
    assert [a, b][1..] == [b];
  }

  lemma {:induction false} JoinSplit(s: string, sep: char)
    ensures Join(Split(s, sep), sep) == s
  {
    if s != "" {
      JoinSplit(s[1..], sep);
      var rest := Split(s[1..], sep);
      if s[0] == sep {
        assert ([""] + rest)[1..] == rest;
      } else if |rest| > 1 {
        assert ([[s[0]] + rest[0]] + rest[1..])[1..] == rest[1..];
        assert [s[0]] + rest[0] + [sep] + Join(rest[1..], sep) == [s[0]] + (rest[0] + [sep] + Join(rest[1..], sep));
      }
    }
  }

  lemma {:induction false} PartsFree(s: string, sep: char)
    ensures forall i :: 0 <= i < |Split(s, sep)| ==> sep !in Split(s, sep)[i]
  {
    if s != "" {
      PartsFree(s[1..], sep);
    }
  }

  lemma {:induction false} SplitFree(s: string, sep: char)
    requires sep !in s
    ensures Split(s, sep) == [s]
  {
    if s != "" {
      SplitFree(s[1..], sep);
      assert s == [s[0]] + s[1..];
    }
  }

  /** Splitting distributes over a separator. */
  lemma {:induction false} SplitAt(s: string, t: string, sep: char)
    ensures Split(s + [sep] + t, sep) == Split(s, sep) + Split(t, sep)
  {
    var u := s + [sep] + t;
    if s == "" {
      assert u[1..] == t;
    } else {
      assert u[1..] == s[1..] + [sep] + t;
      SplitAt(s[1..], t, sep);
    }
  }

  predicate Blank(c: char) {
    c == ' ' || c == '\t' || c == '\n' || c == '\r' || c == '\U{000b}' || c == '\U{000c}'
  }

  function TrimLeft(s: string): string {
    if s != "" && Blank(s[0]) then TrimLeft(s[1..]) else s
  }

  function TrimRight(s: string): string {
    if s != "" && Blank(s[|s| - 1]) then TrimRight(s[..|s| - 1]) else s
  }

  function Trim(s: string): string {
    TrimRight(TrimLeft(s))
  }

  lemma {:induction false} TrimLeftMeans(s: string) returns (pre: string)
    ensures s == pre + TrimLeft(s) && (forall c :: c in pre ==> Blank(c))
    ensures TrimLeft(s) != "" ==> !Blank(TrimLeft(s)[0])
  {
    if s != "" && Blank(s[0]) {
      var rest := TrimLeftMeans(s[1..]);
      pre := [s[0]] + rest;
    } else {
      pre := "";
    }
  }

  lemma {:induction false} TrimRightMeans(s: string) returns (post: string)
    ensures s == TrimRight(s) + post && (forall c :: c in post ==> Blank(c))
    ensures TrimRight(s) != "" ==> !Blank(TrimRight(s)[|TrimRight(s)| - 1]) && TrimRight(s)[0] == s[0]
  {
    if s != "" && Blank(s[|s| - 1]) {
      var rest := TrimRightMeans(s[..|s| - 1]);
      post := rest + [s[|s| - 1]];
      assert s == s[..|s| - 1] + [s[|s| - 1]];
    } else {
      post := "";
    }
  }

  lemma BlankMeans(c: char)
    ensures Blank(c) <==> 9 <= c as int <= 13 || c as int == 32
  {
  }

  /** Trimming takes off blanks at both ends, and all of them: tab, line feed, vertical
      tab, form feed, carriage return and space. */
  lemma TrimMeans(s: string) returns (pre: string, post: string)
    ensures s == pre + Trim(s) + post
    ensures forall c :: c in pre || c in post ==> 9 <= c as int <= 13 || c as int == 32
    ensures Trim(s) != "" ==>
      var first, last := Trim(s)[0] as int, Trim(s)[|Trim(s)| - 1] as int;
      !(9 <= first <= 13) && first != 32 && !(9 <= last <= 13) && last != 32
  {
    pre := TrimLeftMeans(s);
    post := TrimRightMeans(TrimLeft(s));
    forall c ensures Blank(c) <==> 9 <= c as int <= 13 || c as int == 32 {
      BlankMeans(c);
    }
  }

  /** Nothing is left exactly of blanks alone. */
  lemma TrimEmpty(s: string)
    ensures Trim(s) == "" <==> forall k :: 0 <= k < |s| ==> 9 <= s[k] as int <= 13 || s[k] as int == 32
  {
    var pre, post := TrimMeans(s);
    if Trim(s) == "" {
      assert s == pre + post;
      forall k | 0 <= k < |s| ensures 9 <= s[k] as int <= 13 || s[k] as int == 32 {
        assert s[k] in pre || s[k] in post;
      }
    } else {
      assert s[|pre|] == Trim(s)[0];
    }
  }

  /** strings.SplitN with "@" and 2: what follows the first at sign, if there is one. */
  function AfterAt(s: string): Option<string> {
    if s == "" then None else if s[0] == '@' then Some(s[1..]) else AfterAt(s[1..])
  }

  lemma {:induction false} AfterAtMeans(local: string, domain: string)
    requires '@' !in local
    ensures AfterAt(local) == None && AfterAt(local + "@" + domain) == Some(domain)
  {
    var s := local + "@" + domain;
    if local == "" {
      assert s[1..] == domain;
    } else {
      assert s[0] == local[0] && local[0] in local;
      assert s[1..] == local[1..] + "@" + domain;
      AfterAtMeans(local[1..], domain);
    }
  }

  predicate Digit(c: char) {
    '0' <= c <= '9'
  }

  function DigitsValue(s: string): nat
    requires forall c :: c in s ==> Digit(c)
  {
    if s == "" then 0
    else
      var last := s[|s| - 1];
      assert last in s && Digit(last);
      10 * DigitsValue(s[..|s| - 1]) + (last as int - '0' as int) as nat
  }

  /** strconv.Atoi: an optional sign, at least one digit, and a value in int64. */
  function Atoi(s: string): Option<int> {
    var digits := if s != "" && (s[0] == '+' || s[0] == '-') then s[1..] else s;
    if digits == "" || exists c :: c in digits && !Digit(c) then None
    else
      var n: int := if s[0] == '-' then 0 - DigitsValue(digits) else DigitsValue(digits) + 0;
      if -0x8000_0000_0000_0000 <= n < 0x8000_0000_0000_0000 then Some(n) else None
  }

  /** A number in decimal, as fmt writes it. */
  function Decimal(n: nat): (s: string)
    ensures s != "" && (forall c :: c in s ==> Digit(c)) && DigitsValue(s) == n
  {
    var last := ['0' + (n % 10) as char];
    if n < 10 then last
    else
      var s := Decimal(n / 10) + last;
      assert s[..|s| - 1] == Decimal(n / 10);
      s
  }

  /** Reading a decimal back gives the number exactly if an int64 holds it, ... */
  lemma AtoiReadsDecimal(n: nat)
    ensures Atoi(Decimal(n)) == if n < 0x8000_0000_0000_0000 then Some(n) else None
  {
    assert Decimal(n)[0] in Decimal(n);
  }

  /** ... and so for a negative one. */
  lemma AtoiReadsNegative(n: nat)
    ensures n <= 0x8000_0000_0000_0000 ==> Atoi("-" + Decimal(n)).Some? && Atoi("-" + Decimal(n)).value + n == 0
    ensures n > 0x8000_0000_0000_0000 ==> Atoi("-" + Decimal(n)).None?
  {
    assert ("-" + Decimal(n))[1..] == Decimal(n);
  }

  /** What is read has an optional sign, at least one digit, and nothing else; a plus sign
      does not change the number. */
  lemma AtoiAccepts(s: string)
    requires Atoi(s).Some?
    ensures var digits := if s != "" && (s[0] == '+' || s[0] == '-') then s[1..] else s;
      digits != "" && forall k :: 0 <= k < |digits| ==> 48 <= digits[k] as int <= 57
    ensures s[0] != '+' && s[0] != '-' ==> Atoi("+" + s) == Atoi(s)
  {
    var digits := if s != "" && (s[0] == '+' || s[0] == '-') then s[1..] else s;
    forall k | 0 <= k < |digits| ensures 48 <= digits[k] as int <= 57 {
      assert digits[k] in digits && Digit(digits[k]);
    }
    assert ("+" + s)[1..] == s;
  }

  /** Decimals are to the base ten, the last digit last. */
  lemma DecimalMeans(n: nat, d: nat)
    requires d < 10
    ensures Decimal(10 * n + d) == (if n == 0 then "" else Decimal(n)) + ["0123456789"[d]]
  {
  }

  predicate HasPrefix(s: string, prefix: string) {
    prefix <= s
  }

  /** strings.Index. */
  function IndexOf(s: string, sub: string): Option<nat>
    ensures IndexOf(s, sub).Some? ==> IndexOf(s, sub).value + |sub| <= |s|
  {
    if sub <= s then Some(0)
    else if s == "" then None
    else match IndexOf(s[1..], sub)
      case None => None
      case Some(k) => Some(k + 1)
  }
}
