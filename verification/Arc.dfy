/** The ARC chain check (internal/smtp/auth.go, checkARCChain and the header
    parameter readers). */
module Arc {
  import opened Models
  import opened Text

  datatype AuthCheck = AuthNone | AuthPass | AuthFail

  /** What mail.ReadMessage makes of the raw bytes: the ARC-Seal and the
      ARC-Authentication-Results values, each in the order of the message. */
  datatype Message = Unreadable | Parsed(seals: seq<string>, results: seq<string>)

  datatype ArcResult = ArcResult(passed: bool, spf: AuthCheck, dkim: AuthCheck, dmarc: AuthCheck)

  const NOT_PASSED := ArcResult(false, AuthNone, AuthNone, AuthNone)

  // ---------- Parameters of a header value ----------

  function Param(part: string, key: string): Option<string> {
    var p := Trim(part);
    if HasPrefix(p, key + "=") then Some(Trim(p[|key| + 1..])) else None
  }

  function FirstString(parts: seq<string>, key: string): string {
    if parts == [] then ""
    else match Param(parts[0], key)
      case Some(v) => v
      case None => FirstString(parts[1..], key)
  }

  function NumberOf(part: string, key: string): Option<int> {
    match Param(part, key)
    case Some(v) => Atoi(v)
    case None => None
  }

  function FirstInt(parts: seq<string>, key: string): int {
    if parts == [] then 0
    else match NumberOf(parts[0], key)
      case Some(n) => n
      case None => FirstInt(parts[1..], key)
  }

  function StringParam(s: string, key: string): string {
    FirstString(Split(Lower(s), ';'), key)
  }

  function IntParam(s: string, key: string): int {
    FirstInt(Split(Lower(s), ';'), key)
  }

  /** arcStringParam. */
  method ArcStringParam(s: string, key: string) returns (v: string)
    ensures v == StringParam(s, key)
  {
    var parts := Split(Lower(s), ';');
    for k := 0 to |parts|
      invariant FirstString(parts, key) == FirstString(parts[k..], key)
    {
      var part := Trim(parts[k]);
      assert parts[k..][0] == parts[k] && parts[k..][1..] == parts[k + 1..];
      if HasPrefix(part, key + "=") {
        return Trim(part[|key| + 1..]);
      }
    }
    v := "";
  }

  /** arcIntParam: a part whose number cannot be read is passed over. */
  method ArcIntParam(s: string, key: string) returns (n: int)
    ensures n == IntParam(s, key)
  {
    var parts := Split(Lower(s), ';');
    for k := 0 to |parts|
      invariant FirstInt(parts, key) == FirstInt(parts[k..], key)
    {
      var part := Trim(parts[k]);
      assert parts[k..][0] == parts[k] && parts[k..][1..] == parts[k + 1..];
      if HasPrefix(part, key + "=") {
        var number := Atoi(Trim(part[|key| + 1..]));
        if number.Some? {
          return number.value;
        }
      }
    }
    n := 0;
  }

  /** A list of tags as it is written in a header, "k=v; k=v". */
  function Written(tags: seq<(string, string)>): string {
    if tags == [] then ""
    else
      var tag := " " + tags[0].0 + "=" + tags[0].1;
      if |tags| == 1 then tag else tag + [';'] + Written(tags[1..])
  }

  function Lookup(tags: seq<(string, string)>, key: string): string {
    if tags == [] then "" else if tags[0].0 == key then tags[0].1 else Lookup(tags[1..], key)
  }

  predicate Plain(s: string) {
    Lower(s) == s && (forall c :: c in s ==> !Blank(c) && c != ';' && c != '=')
  }

  predicate PlainTags(tags: seq<(string, string)>) {
    forall i :: 0 <= i < |tags| ==> Plain(tags[i].0) && Plain(tags[i].1) && tags[i].0 != "" && tags[i].1 != ""
  }

  lemma TrimPlain(s: string)
    requires s != "" && !Blank(s[0]) && !Blank(s[|s| - 1])
    ensures Trim(s) == s && Trim(" " + s) == s
  {
    assert (" " + s)[1..] == s;
  }

  lemma ConsPrefix(a: char, x: string, b: char, y: string)
    ensures [a] + x <= [b] + y <==> a == b && x <= y
  {
    assert ([a] + x)[1..] == x && ([b] + y)[1..] == y;
    if a == b && x <= y {
      assert y == x + y[|x|..];
      assert [b] + y == [a] + x + y[|x|..];
    }
    if [a] + x <= [b] + y {
      assert ([b] + y)[..|x| + 1] == [a] + x;
      assert ([b] + y)[0] == ([a] + x)[0];
      assert y[..|x|] == ([b] + y)[..|x| + 1][1..];
    }
  }

  lemma {:induction false} PrefixKey(k: string, v: string, key: string)
    requires '=' !in k && '=' !in key
    ensures HasPrefix(k + "=" + v, key + "=") <==> k == key
  {
    var tag, p := k + "=" + v, key + "=";
    if k != "" && key != "" {
      PrefixKey(k[1..], v, key[1..]);
      assert tag == [k[0]] + (k[1..] + "=" + v);
      assert p == [key[0]] + (key[1..] + "=");
      ConsPrefix(key[0], key[1..] + "=", k[0], k[1..] + "=" + v);
      assert k == [k[0]] + k[1..] && key == [key[0]] + key[1..];
    } else if key != "" {
      assert p[0] == key[0] && key[0] in key && tag[0] == '=';
    } else if k != "" {
      assert tag[0] == k[0] && k[0] in k && p[0] == '=';
    }
  }

  lemma TagReadBack(k: string, v: string, key: string)
    requires Plain(k) && Plain(v) && Plain(key) && k != "" && v != ""
    ensures Param(" " + k + "=" + v, key) == if k == key then Some(v) else None
  {
    var tag := k + "=" + v;
    assert " " + k + "=" + v == " " + tag;
    assert tag[0] == k[0] && k[0] in k;
    assert tag[|tag| - 1] == v[|v| - 1] && v[|v| - 1] in v && v[0] in v;
    TrimPlain(tag);
    TrimPlain(v);
    PrefixKey(k, v, key);
    assert tag[|k| + 1..] == v;
  }

  ghost predicate Blanks(s: string) {
    forall c :: c in s ==> c in " \t\n\r\U{000b}\U{000c}"
  }

  lemma {:induction false} TrimPadded(pre: string, s: string, post: string)
    requires Blanks(pre) && Blanks(post) && s != "" && !Blank(s[0]) && !Blank(s[|s| - 1])
    ensures Trim(pre + s + post) == s
  {
    LeftPadded(pre, s + post);
    assert pre + s + post == pre + (s + post);
    RightPadded(s, post);
  }

  lemma {:induction false} LeftPadded(pre: string, s: string)
    requires Blanks(pre) && s != "" && !Blank(s[0])
    ensures TrimLeft(pre + s) == s
  {
    if pre != "" {
      assert pre[0] in pre;
      assert (pre + s)[1..] == pre[1..] + s;
      LeftPadded(pre[1..], s);
    } else {
      assert pre + s == s;
    }
  }

  lemma {:induction false} RightPadded(s: string, post: string)
    requires Blanks(post) && s != "" && !Blank(s[|s| - 1])
    ensures TrimRight(s + post) == s
  {
    if post != "" {
      assert post[|post| - 1] in post;
      assert (s + post)[..|s + post| - 1] == s + post[..|post| - 1];
      RightPadded(s, post[..|post| - 1]);
    } else {
      assert s + post == s;
    }
  }

  /** Blanks around a tag and after its equals sign do not count. */
  lemma PaddedTag(pre: string, k: string, mid: string, v: string, post: string, key: string)
    requires Blanks(pre) && Blanks(mid) && Blanks(post)
    requires Plain(k) && Plain(v) && Plain(key) && k != "" && v != ""
    ensures Param(pre + (k + "=" + (mid + v)) + post, key) == if k == key then Some(v) else None
  {
    var tag := k + "=" + (mid + v);
    assert tag[0] == k[0] && k[0] in k;
    assert tag[|tag| - 1] == v[|v| - 1] && v[|v| - 1] in v && v[0] in v;
    TrimPadded(pre, tag, post);
    PrefixKey(k, mid + v, key);
    assert tag[|k| + 1..] == mid + v;
    TrimPadded(mid, v, "");
    assert mid + v + "" == mid + v;
  }

  /** Nor does the case of the header. */
  lemma CaseOfHeader(s: string, t: string, key: string)
    requires |s| == |t| && forall i :: 0 <= i < |s| ==> Alike(s[i], t[i])
    ensures StringParam(s, key) == StringParam(t, key) && IntParam(s, key) == IntParam(t, key)
    ensures AuthResultValue(s, key) == AuthResultValue(t, key)
  {
    LowerMeans(s, t);
  }

  lemma TagIsOnePart(k: string, v: string)
    requires Plain(k) && Plain(v)
    ensures Lower(" " + k + "=" + v) == " " + k + "=" + v
    ensures ';' !in " " + k + "=" + v
  {
    LowerConcat(" " + k + "=", v);
    LowerConcat(" " + k, "=");
    LowerConcat(" ", k);
    assert Lower(" ") == " " && Lower("=") == "=";
  }

  function LookupInt(tags: seq<(string, string)>, key: string): int {
    if tags == [] then 0
    else if tags[0].0 == key && Atoi(tags[0].1).Some? then Atoi(tags[0].1).value
    else LookupInt(tags[1..], key)
  }

  /** Reading a written tag list back gives the value of the first tag of that name,
      and the first number that a tag of that name holds. */
  lemma {:induction false} ReadBack(tags: seq<(string, string)>, key: string)
    requires PlainTags(tags) && Plain(key)
    ensures StringParam(Written(tags), key) == Lookup(tags, key)
    ensures IntParam(Written(tags), key) == LookupInt(tags, key)
  {
    if tags == [] {
      assert Split(Lower(""), ';') == [""];
      assert Param("", key) == None;
      assert [""][1..] == [];
      assert FirstString([""][1..], key) == "" && FirstInt([""][1..], key) == 0;
    } else {
      var k, v := tags[0].0, tags[0].1;
      var tag := " " + k + "=" + v;
      TagIsOnePart(k, v);
      TagReadBack(k, v, key);
      SplitFree(tag, ';');
      if |tags| > 1 {
        ReadBack(tags[1..], key);
        var rest := Written(tags[1..]);
        LowerConcat(tag + [';'], rest);
        LowerConcat(tag, [';']);
        assert Lower([';']) == [';'];
        SplitAt(tag, Lower(rest), ';');
        assert ([tag] + Split(Lower(rest), ';'))[1..] == Split(Lower(rest), ';');
      } else {
        assert Split(Lower(Written(tags)), ';') == [tag];
        assert [tag][1..] == [] && tags[1..] == [];
        assert FirstString([tag][1..], key) == "" && FirstInt([tag][1..], key) == 0;
        assert Lookup(tags[1..], key) == "" && LookupInt(tags[1..], key) == 0;
      }
    }
  }

  // ---------- One method's result ----------

  predicate Stop(c: char) {
    c == ' ' || c == '\t' || c == '\n' || c == '\r' || c == ';' || c == '('
  }

  predicate Boundary(c: char) {
    c == ' ' || c == '\t' || c == '\n' || c == ';'
  }

  function UpToStop(s: string): string {
    if s == "" || Stop(s[0]) then "" else [s[0]] + UpToStop(s[1..])
  }

  function ReadWord(low: string, key: string): Option<string> {
    var at := IndexOf(low, key);
    if at.None? || (at.value > 0 && !Boundary(low[at.value - 1])) then None
    else Some(Trim(UpToStop(low[at.value + |key|..])))
  }

  /** authResultValue. */
  function AuthResultValue(s: string, name: string): AuthCheck {
    match ReadWord(Lower(s), name + "=")
    case None => AuthNone
    case Some(word) =>
      if word == "pass" then AuthPass
      else if word == "fail" || word == "softfail" then AuthFail
      else AuthNone
  }

  predicate OccursAt(s: string, sub: string, k: nat) {
    k + |sub| <= |s| && s[k..k + |sub|] == sub
  }

  lemma {:induction false} IndexMeans(s: string, sub: string)
    ensures IndexOf(s, sub).None? ==> forall k: nat :: !OccursAt(s, sub, k)
    ensures IndexOf(s, sub).Some? ==>
              OccursAt(s, sub, IndexOf(s, sub).value)
              && forall k: nat :: k < IndexOf(s, sub).value ==> !OccursAt(s, sub, k)
  {
    if sub <= s {
      assert s[0..0 + |sub|] == sub;
    } else {
      assert !OccursAt(s, sub, 0);
      if s != "" {
        IndexMeans(s[1..], sub);
        forall k: nat | 0 < k
          ensures OccursAt(s, sub, k) <==> OccursAt(s[1..], sub, k - 1)
        {
          if k + |sub| <= |s| {
            assert s[k..k + |sub|] == s[1..][k - 1..k - 1 + |sub|];
          }
        }
      }
    }
  }

  ghost predicate ReportedAs(low: string, key: string, pre: string, val: string, post: string) {
    && low == pre + key + (val + post)
    && (forall k: nat :: k < |pre| ==> !OccursAt(low, key, k))
    && (pre == "" || pre[|pre| - 1] in " \t\n;")
    && (forall c :: c in val ==> c !in " \t\n\r;(")
    && (post == "" || post[0] in " \t\n\r;(")
  }

  /** `word` stands in `low` as the result that `key` announces: at the first place
      where the key occurs, at a word's start, up to the next stop. */
  ghost predicate Reports(low: string, key: string, word: string) {
    exists pre, val, post :: ReportedAs(low, key, pre, val, post) && Trim(val) == word
  }

  lemma {:induction false} UpToStopMeans(val: string, post: string)
    requires forall c :: c in val ==> !Stop(c)
    requires post == "" || Stop(post[0])
    ensures UpToStop(val + post) == val
  {
    if val == "" {
      assert val + post == post;
    } else {
      assert (val + post)[1..] == val[1..] + post;
      assert val[0] in val;
      UpToStopMeans(val[1..], post);
    }
  }

  lemma {:induction false} UpToStopSplits(s: string) returns (post: string)
    ensures s == UpToStop(s) + post
    ensures forall c :: c in UpToStop(s) ==> !Stop(c)
    ensures post == "" || Stop(post[0])
  {
    if s == "" || Stop(s[0]) {
      post := s;
    } else {
      post := UpToStopSplits(s[1..]);
      assert s == [s[0]] + s[1..];
    }
  }

  lemma ReadsReport(low: string, key: string, pre: string, val: string, post: string)
    requires ReportedAs(low, key, pre, val, post)
    ensures ReadWord(low, key) == Some(Trim(val))
  {
    IndexMeans(low, key);
    assert OccursAt(low, key, |pre|);
    assert IndexOf(low, key) == Some(|pre|);
    assert low[|pre| + |key|..] == val + post;
    UpToStopMeans(val, post);
  }

  lemma ReportIsThere(low: string, key: string)
    requires ReadWord(low, key).Some?
    ensures Reports(low, key, ReadWord(low, key).value)
  {
    IndexMeans(low, key);
    var at := IndexOf(low, key).value;
    var pre, tail := low[..at], low[at + |key|..];
    var post := UpToStopSplits(tail);
    var val := UpToStop(tail);
    assert low == pre + key + (val + post);
    forall c ensures Stop(c) <==> c in " \t\n\r;(" { StopMeans(c); }
    assert pre != "" ==> pre[|pre| - 1] in " \t\n;" by {
      if pre != "" { StopMeans(pre[|pre| - 1]); }
    }
    assert ReportedAs(low, key, pre, val, post);
  }

  lemma StopMeans(c: char)
    ensures Stop(c) <==> c in " \t\n\r;("
    ensures Boundary(c) <==> c in " \t\n;"
  {
    assert " \t\n\r;(" == [' ', '\t', '\n', '\r', ';', '('];
    assert " \t\n;" == [' ', '\t', '\n', ';'];
  }

  /** The result is pass or fail exactly when the header reports such a word. */
  lemma ResultMeans(s: string, name: string)
    ensures AuthResultValue(s, name).AuthPass? <==> Reports(Lower(s), name + "=", "pass")
    ensures AuthResultValue(s, name).AuthFail? <==>
              Reports(Lower(s), name + "=", "fail") || Reports(Lower(s), name + "=", "softfail")
  {
    var low, key := Lower(s), name + "=";
    if ReadWord(low, key).Some? {
      ReportIsThere(low, key);
    }
    forall pre, val, post | ReportedAs(low, key, pre, val, post)
      ensures ReadWord(low, key) == Some(Trim(val))
    {
      ReadsReport(low, key, pre, val, post);
    }
  }

  // ---------- The chain ----------

  predicate SaysFail(seal: string) {
    StringParam(seal, "cv") == "fail"
  }

  function Instance(header: string): int {
    IntParam(header, "i")
  }

  predicate ValidSeal(seal: string) {
    && Instance(seal) > 0
    && (StringParam(seal, "cv") == "pass" || (Instance(seal) == 1 && StringParam(seal, "cv") == "none"))
  }

  /** No seal says fail, and some seal is valid for its instance. */
  ghost predicate Passes(seals: seq<string>) {
    && (forall seal :: seal in seals ==> !SaysFail(seal))
    && (exists seal :: seal in seals && ValidSeal(seal))
  }

  function Original(header: string): ArcResult {
    ArcResult(true, AuthResultValue(header, "spf"), AuthResultValue(header, "dkim"), AuthResultValue(header, "dmarc"))
  }

  /** The results kept by the first header of instance 1. */
  function Preserved(results: seq<string>): (kept: ArcResult)
    ensures kept.passed
  {
    if results == [] then ArcResult(true, AuthNone, AuthNone, AuthNone)
    else if Instance(results[0]) == 1 then Original(results[0])
    else Preserved(results[1..])
  }

  ghost function ChainOf(msg: Message): ArcResult {
    if msg.Unreadable? || !Passes(msg.seals) then NOT_PASSED else Preserved(msg.results)
  }

  /** checkARCChain. */
  method CheckArcChain(msg: Message) returns (res: ArcResult)
    ensures res == ChainOf(msg)
  {
    if msg.Unreadable? {
      return NOT_PASSED;
    }
    for k := 0 to |msg.seals|
      invariant forall j :: 0 <= j < k ==> !SaysFail(msg.seals[j])
    {
      var cv := ArcStringParam(msg.seals[k], "cv");
      if cv == "fail" {
        assert SaysFail(msg.seals[k]);
        return NOT_PASSED;
      }
    }
    var maxValidInstance := HighestValid(msg.seals);
    if maxValidInstance == 0 {
      return NOT_PASSED;
    }
    res := ArcResult(true, AuthNone, AuthNone, AuthNone);
    for k := 0 to |msg.results|
      invariant res == ArcResult(true, AuthNone, AuthNone, AuthNone)
      invariant Preserved(msg.results) == Preserved(msg.results[k..])
    {
      var i := ArcIntParam(msg.results[k], "i");
      assert msg.results[k..][0] == msg.results[k] && msg.results[k..][1..] == msg.results[k + 1..];
      if i == 1 {
        return Original(msg.results[k]);
      }
    }
  }

  /** The second loop of checkARCChain: the highest instance among the valid seals. */
  method HighestValid(seals: seq<string>) returns (highest: int)
    ensures highest >= 0
    ensures highest == 0 <==> forall seal :: seal in seals ==> !ValidSeal(seal)
    ensures highest > 0 ==> exists seal :: seal in seals && ValidSeal(seal) && Instance(seal) == highest
    ensures forall seal :: seal in seals && ValidSeal(seal) ==> Instance(seal) <= highest
  {
    highest := 0;
    for k := 0 to |seals|
      invariant highest >= 0
      invariant highest > 0 ==> exists j :: 0 <= j < k && ValidSeal(seals[j]) && Instance(seals[j]) == highest
      invariant forall j :: 0 <= j < k && ValidSeal(seals[j]) ==> Instance(seals[j]) <= highest
    {
      var i := ArcIntParam(seals[k], "i");
      var cv := ArcStringParam(seals[k], "cv");
      var validCV := cv == "pass" || (i == 1 && cv == "none");
      if i > 0 && validCV && i > highest {
        highest := i;
      }
    }
  }

  /** What the kept results say, for any header. */
  ghost predicate SaysIn(result: AuthCheck, header: string, key: string) {
    && (result.AuthPass? <==> Reports(Lower(header), key, "pass"))
    && (result.AuthFail? <==> Reports(Lower(header), key, "fail") || Reports(Lower(header), key, "softfail"))
  }

  /** A passing chain keeps what the first header of instance 1 reports, method by method,
      and nothing if there is none; a failing chain keeps nothing. */
  lemma KeptResults(seals: seq<string>, results: seq<string>, k: nat)
    requires k <= |results| && forall j :: 0 <= j < k ==> IntParam(results[j], "i") != 1
    requires k < |results| ==> IntParam(results[k], "i") == 1
    ensures var kept := ChainOf(Parsed(seals, results));
      if !kept.passed || k == |results| then kept == ArcResult(kept.passed, AuthNone, AuthNone, AuthNone)
      else SaysIn(kept.spf, results[k], "spf=") && SaysIn(kept.dkim, results[k], "dkim=") && SaysIn(kept.dmarc, results[k], "dmarc=")
  {
    if k == |results| {
      NoneOfInstance(results);
    } else {
      FirstAt(results, k);
      ResultMeans(results[k], "spf");
      ResultMeans(results[k], "dkim");
      ResultMeans(results[k], "dmarc");
      assert "spf" + "=" == "spf=" && "dkim" + "=" == "dkim=" && "dmarc" + "=" == "dmarc=";
    }
  }

  lemma {:induction false} FirstAt(results: seq<string>, k: nat)
    requires k < |results| && Instance(results[k]) == 1 && forall j :: 0 <= j < k ==> Instance(results[j]) != 1
    ensures Preserved(results) == Original(results[k])
  {
    if k > 0 {
      FirstAt(results[1..], k - 1);
    }
  }

  // ---------- Order ----------

  lemma SameMembers<T>(a: seq<T>, b: seq<T>, x: T)
    requires multiset(a) == multiset(b)
    ensures x in a <==> x in b
  {
    assert x in multiset(a) <==> x in a;
    assert x in multiset(b) <==> x in b;
  }

  /** Whether the chain passes does not depend on the order of the seals, and one
      seal that says fail settles it. */
  lemma SealOrder(seals: seq<string>, others: seq<string>, results: seq<string>)
    requires multiset(seals) == multiset(others)
    ensures ChainOf(Parsed(seals, results)) == ChainOf(Parsed(others, results))
    ensures (exists seal :: seal in others && SaysFail(seal)) ==> ChainOf(Parsed(seals, results)) == NOT_PASSED
  {
    forall seal ensures seal in seals <==> seal in others {
      SameMembers(seals, others, seal);
    }
  }

  lemma {:induction false} NoneOfInstance(results: seq<string>)
    requires forall h :: h in results ==> Instance(h) != 1
    ensures Preserved(results) == ArcResult(true, AuthNone, AuthNone, AuthNone)
  {
    if results != [] {
      assert results[0] in results;
      NoneOfInstance(results[1..]);
    }
  }

  lemma {:induction false} FirstOfInstance(results: seq<string>) returns (first: string)
    requires exists h :: h in results && Instance(h) == 1
    ensures first in results && Instance(first) == 1 && Preserved(results) == Original(first)
  {
    if Instance(results[0]) == 1 {
      first := results[0];
    } else {
      assert results == [results[0]] + results[1..];
      first := FirstOfInstance(results[1..]);
    }
  }

  /** The headers of instance 1 do not contradict one another; so it is when no two
      headers carry the same instance. */
  predicate Consistent(results: seq<string>) {
    forall g, h :: g in results && h in results && Instance(g) == 1 && Instance(h) == 1 ==> Original(g) == Original(h)
  }

  lemma ResultOrder(results: seq<string>, others: seq<string>)
    requires multiset(results) == multiset(others) && Consistent(results)
    ensures Preserved(results) == Preserved(others)
  {
    forall h ensures h in results <==> h in others {
      SameMembers(results, others, h);
    }
    if h :| h in results && Instance(h) == 1 {
      assert h in others;
      var first := FirstOfInstance(results);
      var other := FirstOfInstance(others);
    } else {
      NoneOfInstance(results);
      NoneOfInstance(others);
    }
  }

  lemma {:induction false} MovedToFront<T>(a: seq<T>, k: nat) returns (b: seq<T>)
    requires k < |a|
    ensures multiset(b) == multiset(a) && b != [] && b[0] == a[k]
  {
    b := [a[k]] + (a[..k] + a[k + 1..]);
    assert a == a[..k] + ([a[k]] + a[k + 1..]);
  }

  /** The preserved results are independent of the order of the headers exactly when
      the headers of instance 1 agree. */
  lemma OrderMattersExactly(results: seq<string>)
    ensures Consistent(results) <==>
              forall others: seq<string> :: multiset(results) == multiset(others) ==> Preserved(others) == Preserved(results)
  {
    if Consistent(results) {
      forall others: seq<string> | multiset(results) == multiset(others)
        ensures Preserved(others) == Preserved(results)
      {
        ResultOrder(results, others);
      }
    } else {
      var g, h :| g in results && h in results && Instance(g) == 1 && Instance(h) == 1 && Original(g) != Original(h);
      var i :| 0 <= i < |results| && results[i] == g;
      var j :| 0 <= j < |results| && results[j] == h;
      var a := MovedToFront(results, i);
      var b := MovedToFront(results, j);
      assert Preserved(a) != Preserved(b);
    }
  }

  /** Headers with distinct instances are consistent. */
  lemma DistinctInstancesAgree(results: seq<string>)
    requires forall i, j :: 0 <= i < j < |results| ==> Instance(results[i]) != Instance(results[j])
    ensures Consistent(results)
  {
  }

  // ---------- The comment's rule ----------

  /** The rule as the comment on checkARCChain words it: a seal of the highest
      instance has a valid cv. */
  ghost predicate HighestIsValid(seals: seq<string>) {
    exists seal :: seal in seals && ValidSeal(seal) && forall other :: other in seals ==> Instance(other) <= Instance(seal)
  }

  /** Without a fail the code accepts more than the comment: the two agree exactly
      when no seal of a higher instance than every valid one follows a valid one. */
  lemma CommentDisagrees(seals: seq<string>)
    requires forall seal :: seal in seals ==> !SaysFail(seal)
    ensures HighestIsValid(seals) ==> Passes(seals)
    ensures Passes(seals) && !HighestIsValid(seals) <==>
              && (exists seal :: seal in seals && ValidSeal(seal))
              && (exists over :: over in seals && forall seal :: seal in seals && ValidSeal(seal) ==> Instance(seal) < Instance(over))
  {
    if Passes(seals) {
      var top := TopValid(seals);
      if !HighestIsValid(seals) {
        var over :| over in seals && Instance(over) > Instance(top);
        assert forall seal :: seal in seals && ValidSeal(seal) ==> Instance(seal) < Instance(over);
      }
    }
  }

  lemma {:induction false} TopValid(seals: seq<string>) returns (top: string)
    requires exists seal :: seal in seals && ValidSeal(seal)
    ensures top in seals && ValidSeal(top)
    ensures forall seal :: seal in seals && ValidSeal(seal) ==> Instance(seal) <= Instance(top)
  {
    var rest := seals[1..];
    assert seals == [seals[0]] + rest;
    if exists seal :: seal in rest && ValidSeal(seal) {
      top := TopValid(rest);
      if ValidSeal(seals[0]) && Instance(seals[0]) > Instance(top) {
        top := seals[0];
      }
    } else {
      top := seals[0];
    }
  }
}
