/** Domain alignment for DMARC (internal/smtp/auth.go, orgDomain and domainAligns;
    section 3.1 of RFC 7489, with the code's two-label approximation). */
module Domains {
  import opened Text

  function OrgDomain(domain: string): string {
    var parts := Split(Lower(domain), '.');
    if |parts| <= 2 then Lower(domain) else Join(parts[|parts| - 2..], '.')
  }

  predicate Aligns(check: string, from: string, relaxed: bool) {
    var a, b := Lower(check), Lower(from);
    a == b || (relaxed && OrgDomain(a) == OrgDomain(b))
  }

  function Labels(domain: string): nat {
    |Split(Lower(domain), '.')|
  }

  lemma OrgOfLower(domain: string)
    ensures OrgDomain(Lower(domain)) == OrgDomain(domain)
  {
    LowerIdempotent(domain);
  }

  lemma TwoLabels(a: string, b: string)
    requires Lower(a) == a && Lower(b) == b && '.' !in a && '.' !in b
    ensures Lower(a + ['.'] + b) == a + ['.'] + b
    ensures Split(a + ['.'] + b, '.') == [a, b]
  {
    LowerConcat(a + ['.'], b);
    LowerConcat(a, ['.']);
    assert Lower(['.']) == ['.'];
    SplitAt(a, b, '.');
    SplitFree(a, '.');
    SplitFree(b, '.');
  }

  lemma LastTwo(low: string) returns (a: string, b: string)
    requires Lower(low) == low && |Split(low, '.')| > 2
    ensures Lower(a) == a && Lower(b) == b && '.' !in a && '.' !in b
    ensures OrgDomain(low) == a + ['.'] + b
  {
    var parts := Split(low, '.');
    PartsFree(low, '.');
    a, b := parts[|parts| - 2], parts[|parts| - 1];
    PartsAreLower(low, |parts| - 2);
    PartsAreLower(low, |parts| - 1);
    assert parts[|parts| - 2..] == [a, b];
    JoinTwo(a, b, '.');
  }

  /** The organisational domain has at most two labels and is in lower case. */
  lemma OrgShape(domain: string)
    ensures Lower(OrgDomain(domain)) == OrgDomain(domain)
    ensures Labels(OrgDomain(domain)) <= 2
  {
    LowerIdempotent(domain);
    OrgOfLower(domain);
    if |Split(Lower(domain), '.')| > 2 {
      var a, b := LastTwo(Lower(domain));
      TwoLabels(a, b);
    }
  }

  /** The organisational domain is the last two labels in lower case, or the whole domain
      when there are no more. */
  lemma OrgIsLastTwo(prefix: string, a: string, b: string)
    requires '.' !in a && '.' !in b
    ensures OrgDomain(prefix + "." + (a + "." + b)) == Lower(a) + "." + Lower(b)
    ensures OrgDomain(a + "." + b) == Lower(a) + "." + Lower(b)
    ensures OrgDomain(a) == Lower(a)
  {
    LabelsOfTwo(a, b);
    PrefixedParts(prefix, a + "." + b);
    var p := Split(Lower(prefix), '.');
    assert (p + [Lower(a), Lower(b)])[|p|..] == [Lower(a), Lower(b)];
    JoinTwo(Lower(a), Lower(b), '.');
    LowerConcat(a + ".", b);
    LowerConcat(a, ".");
    assert Lower(".") == ".";
  }

  lemma LabelsOfTwo(a: string, b: string)
    requires '.' !in a && '.' !in b
    ensures Split(Lower(a), '.') == [Lower(a)] && Split(Lower(a + "." + b), '.') == [Lower(a), Lower(b)]
  {
    NoDot(a);
    NoDot(b);
    PrefixedParts(a, b);
    SplitFree(Lower(a), '.');
    SplitFree(Lower(b), '.');
  }

  lemma NoDot(a: string)
    requires '.' !in a
    ensures '.' !in Lower(a)
  {
    forall i | 0 <= i < |a| ensures Lower(a)[i] != '.' {
      assert a[i] in a;
    }
  }

  lemma {:induction false} PartsAreLower(s: string, k: nat)
    requires Lower(s) == s && k < |Split(s, '.')|
    ensures Lower(Split(s, '.')[k]) == Split(s, '.')[k]
  {
    if s != "" {
      assert Lower(s)[1..] == Lower(s[1..]);
      var rest := Split(s[1..], '.');
      if s[0] == '.' {
        if k > 0 { PartsAreLower(s[1..], k - 1); }
      } else {
        PartsAreLower(s[1..], k);
        if k == 0 {
          LowerConcat([s[0]], rest[0]);
          assert Lower([s[0]]) == [LowerChar(s[0])];
          assert Lower(s)[0] == LowerChar(s[0]);
        }
      }
    }
  }

  /** Taking the organisational domain twice changes nothing. */
  lemma OrgIdempotent(domain: string)
    ensures OrgDomain(OrgDomain(domain)) == OrgDomain(domain)
  {
    OrgShape(domain);
  }

  lemma PrefixedParts(prefix: string, domain: string)
    ensures Split(Lower(prefix + "." + domain), '.') == Split(Lower(prefix), '.') + Split(Lower(domain), '.')
  {
    LowerConcat(prefix + ".", domain);
    LowerConcat(prefix, ".");
    assert Lower(".") == ".";
    SplitAt(Lower(prefix), Lower(domain), '.');
  }

  lemma LongerThanLabel(prefix: string, domain: string)
    requires Labels(domain) < 2
    ensures |OrgDomain(prefix + "." + domain)| > |OrgDomain(domain)|
  {
    var p, d := Split(Lower(prefix), '.'), Split(Lower(domain), '.');
    PrefixedParts(prefix, domain);
    JoinSplit(Lower(domain), '.');
    assert d == [Lower(domain)];
    if |p| > 1 {
      var a := p[|p| - 1];
      assert (p + d)[|p + d| - 2..] == [a] + d;
      JoinTwo(a, Lower(domain), '.');
      assert [a] + d == [a, Lower(domain)];
    }
  }

  /** Labels put in front of a domain of at least two labels do not count; in front
      of a single label they do: the condition is exact. */
  lemma SubdomainsShareOrg(prefix: string, domain: string)
    ensures OrgDomain(prefix + "." + domain) == OrgDomain(domain) <==> Labels(domain) >= 2
  {
    var p, d := Split(Lower(prefix), '.'), Split(Lower(domain), '.');
    if |d| >= 2 {
      PrefixedParts(prefix, domain);
      JoinSplit(Lower(domain), '.');
      assert (p + d)[|p + d| - 2..] == d[|d| - 2..];
      assert |d| == 2 ==> d[|d| - 2..] == d;
    } else {
      LongerThanLabel(prefix, domain);
    }
  }

  /** In relaxed mode alignment is equality of organisational domains, in strict
      mode equality up to case. */
  lemma AlignsMeans(a: string, b: string)
    ensures Aligns(a, b, true) <==> OrgDomain(a) == OrgDomain(b)
    ensures Aligns(a, b, false) <==> Lower(a) == Lower(b)
  {
    OrgOfLower(a);
    OrgOfLower(b);
  }

  /** Alignment is an equivalence relation in each mode, and strict implies relaxed. */
  lemma AlignmentLaws(a: string, b: string, c: string, relaxed: bool)
    ensures Aligns(a, a, relaxed)
    ensures Aligns(a, b, relaxed) <==> Aligns(b, a, relaxed)
    ensures Aligns(a, b, relaxed) && Aligns(b, c, relaxed) ==> Aligns(a, c, relaxed)
    ensures Aligns(a, b, false) ==> Aligns(a, b, relaxed)
  {
    AlignsMeans(a, b);
    AlignsMeans(b, c);
    AlignsMeans(a, c);
  }
}
