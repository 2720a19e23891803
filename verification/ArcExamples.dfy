/** Written ARC headers (internal/smtp/auth.go, checkARCChain): what they read as, and two
    on which the code surprises. */
module ArcExamples {
  import opened Models
  import opened Text
  import opened Arc

  // ----- Seals -----

  function Number(i: int): string {
    if i < 0 then "-" + Decimal(-i) else Decimal(i)
  }

  function Seal(i: int, cv: string): string {
    Written([("i", Number(i)), ("cv", cv)])
  }

  lemma NumberIsPlain(i: int)
    ensures Plain(Number(i)) && Number(i) != ""
  {
    var s := Number(i);
    forall k | 0 <= k < |s| ensures LowerChar(s[k]) == s[k] && !Blank(s[k]) && s[k] != ';' && s[k] != '=' {
      assert i < 0 ==> k == 0 || s[k] == Decimal(-i)[k - 1];
      assert i < 0 && k > 0 ==> Decimal(-i)[k - 1] in Decimal(-i);
      assert i >= 0 ==> s[k] in Decimal(i);
    }
    assert Lower(s) == s;
  }

  lemma NumberReadBack(i: int)
    ensures OrElse(Atoi(Number(i)), 0) == if -0x8000_0000_0000_0000 <= i < 0x8000_0000_0000_0000 then i else 0
  {
    if i < 0 {
      AtoiReadsNegative(-i);
    } else {
      AtoiReadsDecimal(i);
    }
  }

  lemma SealTags(i: string, cv: string)
    ensures Lookup([("i", i), ("cv", cv)], "cv") == cv
    ensures LookupInt([("i", i), ("cv", cv)], "i") == OrElse(Atoi(i), 0)
  {
    var tags := [("i", i), ("cv", cv)];
    assert tags[1..] == [("cv", cv)] && tags[1..][1..] == [];
    assert LookupInt(tags[1..], "i") == LookupInt(tags[1..][1..], "i") == 0;
    assert Lookup(tags[1..], "cv") == cv;
  }

  /** A written seal reads as its number, unless no int64 holds that, and its cv. */
  lemma SealReadBack(i: int, cv: string)
    requires Plain(cv) && cv != ""
    ensures Instance(Seal(i, cv)) == if -0x8000_0000_0000_0000 <= i < 0x8000_0000_0000_0000 then i else 0
    ensures StringParam(Seal(i, cv), "cv") == cv
  {
    var tags := [("i", Number(i)), ("cv", cv)];
    NumberIsPlain(i);
    SealTags(Number(i), cv);
    ReadBack(tags, "i");
    ReadBack(tags, "cv");
    NumberReadBack(i);
  }

  /** Seals with these numbers and cv values, as they are written. */
  function Chain(entries: seq<(int, string)>): (seals: seq<string>)
    ensures |seals| == |entries|
  {
    seq(|entries|, k requires 0 <= k < |entries| => Seal(entries[k].0, entries[k].1))
  }

  /** Which written chains pass: none says fail, and some seal says pass, or none as the
      first. */
  lemma WrittenChainPasses(entries: seq<(int, string)>, results: seq<string>)
    requires forall k :: 0 <= k < |entries| ==>
      Plain(entries[k].1) && entries[k].1 != "" && -0x8000_0000_0000_0000 <= entries[k].0 < 0x8000_0000_0000_0000
    ensures ChainOf(Parsed(Chain(entries), results)).passed <==>
      && (forall k :: 0 <= k < |entries| ==> entries[k].1 != "fail")
      && (exists k :: 0 <= k < |entries| &&
            ((entries[k].1 == "pass" && entries[k].0 >= 1) || (entries[k].1 == "none" && entries[k].0 == 1)))
  {
    var seals := Chain(entries);
    forall k | 0 <= k < |entries|
      ensures SaysFail(seals[k]) <==> entries[k].1 == "fail"
      ensures ValidSeal(seals[k]) <==>
        (entries[k].1 == "pass" && entries[k].0 >= 1) || (entries[k].1 == "none" && entries[k].0 == 1)
    {
      SealMeans(entries[k].0, entries[k].1);
    }
    PassesByIndex(seals);
  }

  lemma SealMeans(i: int, cv: string)
    requires Plain(cv) && cv != "" && -0x8000_0000_0000_0000 <= i < 0x8000_0000_0000_0000
    ensures SaysFail(Seal(i, cv)) <==> cv == "fail"
    ensures ValidSeal(Seal(i, cv)) <==> (cv == "pass" && i >= 1) || (cv == "none" && i == 1)
  {
    SealReadBack(i, cv);
  }

  lemma PassesByIndex(seals: seq<string>)
    ensures Passes(seals) <==>
      (forall k :: 0 <= k < |seals| ==> !SaysFail(seals[k])) && (exists k :: 0 <= k < |seals| && ValidSeal(seals[k]))
  {
    if k :| 0 <= k < |seals| && ValidSeal(seals[k]) {
      assert seals[k] in seals;
    }
    if k :| 0 <= k < |seals| && SaysFail(seals[k]) {
      assert seals[k] in seals;
    }
  }

  /** A chain whose last seal has no valid cv passes all the same: for every i > 1. */
  lemma InvalidHighestPasses(i: nat, cv: string)
    requires 1 < i < 0x8000_0000_0000_0000 && cv == "none"
    ensures Passes([Seal(1, cv), Seal(i, cv)]) && !HighestIsValid([Seal(1, cv), Seal(i, cv)])
  {
    var first, second := Seal(1, cv), Seal(i, cv);
    assert Plain(cv);
    SealReadBack(1, cv);
    SealReadBack(i, cv);
    TwoSeals(first, second, cv);
  }

  lemma TwoSeals(first: string, second: string, cv: string)
    requires cv == "none" && StringParam(first, "cv") == cv && StringParam(second, "cv") == cv
    requires Instance(first) == 1 && Instance(second) > 1
    ensures Passes([first, second]) && !HighestIsValid([first, second])
  {
    assert ValidSeal(first) && !ValidSeal(second) && !SaysFail(first) && !SaysFail(second);
    assert first in [first, second] && second in [first, second];
  }

  // ----- Results -----

  /** A header value that reports one result for SPF. */
  function Report(instance: string, word: string): string {
    Written([("i", instance), ("spf", word)])
  }

  /** What stands before the result. */
  function ReportHead(one: string): string {
    " " + "i" + "=" + one + [';'] + " "
  }

  lemma ReportParts(one: string, word: string)
    requires Plain(one) && Plain(word)
    ensures Lower(Report(one, word)) == (" " + "i" + "=" + one) + [';'] + (" " + "spf" + "=" + word)
  {
    var tags := [("i", one), ("spf", word)];
    var head, tail := " " + "i" + "=" + one, " " + "spf" + "=" + word;
    assert tags[1..] == [("spf", word)];
    assert Written(tags[1..]) == tail;
    TagIsOnePart("i", one);
    TagIsOnePart("spf", word);
    TwoTags(head, tail);
  }

  lemma ReportText(one: string, word: string)
    requires Plain(one) && Plain(word)
    ensures Lower(Report(one, word)) == ReportHead(one) + ("spf" + "=") + (word + "")
  {
    ReportParts(one, word);
    Cut(" " + "i" + "=" + one + [';'], " ", "spf" + "=", word);
  }

  lemma Cut(a: string, b: string, c: string, d: string)
    ensures a + (b + c + d) == (a + b) + c + (d + "")
  {
  }

  lemma ReportInstance(one: string, word: string)
    requires one == "1" && Plain(one) && Plain(word) && word != ""
    ensures Instance(Report(one, word)) == 1
  {
    ReadBack([("i", one), ("spf", word)], "i");
    OneIsOne(one);
  }

  lemma TwoTags(head: string, tail: string)
    requires Lower(head) == head && Lower(tail) == tail
    ensures Lower(head + [';'] + tail) == head + [';'] + tail
  {
    LowerConcat(head + [';'], tail);
    LowerConcat(head, [';']);
    assert Lower([';']) == [';'];
  }

  lemma OneIsOne(one: string)
    requires one == "1"
    ensures Atoi(one) == Some(1)
  {
    assert DigitsValue(one[..0]) == 0;
  }

  lemma NotAt(low: string, key: string, k: nat)
    requires k < |low| && key != "" && low[k] != key[0]
    ensures !OccursAt(low, key, k)
  {
    if k + |key| <= |low| {
      assert low[k..k + |key|][0] == low[k];
    }
  }

  lemma ReportReads(one: string, word: string)
    requires one == "1" && Plain(one) && Plain(word) && word != "" && forall c :: c in word ==> !Stop(c)
    ensures Instance(Report(one, word)) == 1 && ReadWord(Lower(Report(one, word)), "spf" + "=") == Some(word)
  {
    var low, pre, key := Lower(Report(one, word)), ReportHead(one), "spf" + "=";
    ReportText(one, word);
    ReportInstance(one, word);
    forall k: nat | k < |pre| ensures !OccursAt(low, key, k) {
      assert low[k] == pre[k] && pre[k] != 's';
      NotAt(low, key, k);
    }
    assert ReportedAs(low, key, pre, word, "");
    ReadsReport(low, key, pre, word, "");
    assert word[0] in word && word[|word| - 1] in word;
    TrimPlain(word);
  }

  lemma TwoReports(g: string, b: string)
    requires Instance(g) == 1 && Instance(b) == 1 && Original(g).spf == AuthPass && Original(b).spf == AuthFail
    ensures !Consistent([g, b])
    ensures Preserved([g, b]).spf == AuthPass && Preserved([b, g]).spf == AuthFail
  {
    assert g in [g, b] && b in [g, b];
  }

  lemma ReportSays(one: string, word: string)
    requires one == "1" && (word == "pass" || word == "fail")
    ensures Instance(Report(one, word)) == 1
    ensures Original(Report(one, word)).spf == if word == "pass" then AuthPass else AuthFail
  {
    assert Plain(one) && Plain(word) && forall c :: c in word ==> !Stop(c);
    ReportReads(one, word);
  }

  /** And it can matter: of two written headers of instance 1, one says pass and one fail,
      and the first one counts. */
  lemma OrderMattersAt(one: string, good: string, bad: string)
    requires one == "1" && good == "pass" && bad == "fail"
    ensures !Consistent([Report(one, good), Report(one, bad)])
    ensures Preserved([Report(one, good), Report(one, bad)]).spf == AuthPass
    ensures Preserved([Report(one, bad), Report(one, good)]).spf == AuthFail
  {
    ReportSays(one, good);
    ReportSays(one, bad);
    TwoReports(Report(one, good), Report(one, bad));
  }
}
