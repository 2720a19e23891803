/** The authentication decision (internal/smtp/auth.go, VerifyAuth). The answers of
    the SPF, DKIM and DMARC libraries are fixed for the message at hand. */
module Auth {
  import opened Models
  import opened Text
  import opened Domains
  import opened Arc

  datatype Mode = Off | Log | Enforce {
    predicate Enabled() { !Off? }
    predicate Enforced() { Enforce? }
  }

  datatype Config = Config(spf: Mode, dkim: Mode, dmarc: Mode)

  datatype SpfAnswer = SpfPass | SpfNeutral | SpfNone | SpfTempError | SpfPermError | SpfFail | SpfSoftFail

  datatype Signature = Signature(domain: string, valid: bool)

  datatype DmarcRecord = DmarcRecord(strictSpf: bool, strictDkim: bool)

  /** A message and what the libraries say of it. `headerFrom` is the first address of
      the From header, None when the message or the header cannot be read; `records`
      holds the domains whose DMARC lookup succeeds. */
  datatype Mail = Mail(
    hasIp: bool,
    sender: string,
    headerFrom: Option<string>,
    headers: Message,
    spf: SpfAnswer,
    signatures: seq<Signature>,
    records: map<string, DmarcRecord>)

  datatype AuthResult = AuthResult(spf: AuthCheck, dkim: AuthCheck, dmarc: AuthCheck, arc: AuthCheck)

  datatype Check = SPF | DKIM | DMARC

  function EnvelopeDomain(mail: Mail): string {
    OrElse(AfterAt(mail.sender), "")
  }

  /** The domain of the From header, or of the envelope when the header has none. */
  function FromDomain(mail: Mail): string {
    var inHeader := if mail.headerFrom.None? then "" else Lower(OrElse(AfterAt(mail.headerFrom.value), ""));
    if inHeader == "" then EnvelopeDomain(mail) else inHeader
  }

  // ---------- What each check says, whatever is enforced ----------

  function OfAnswer(answer: SpfAnswer): AuthCheck {
    match answer
    case SpfPass => AuthPass
    case SpfFail | SpfSoftFail => AuthFail
    case _ => AuthNone
  }

  ghost function SpfVerdict(cfg: Config, mail: Mail, chain: ArcResult): AuthCheck {
    if !cfg.spf.Enabled() || !mail.hasIp || EnvelopeDomain(mail) == "" then AuthNone
    else if chain.spf != AuthNone then chain.spf
    else OfAnswer(mail.spf)
  }

  ghost predicate SomeValid(signatures: seq<Signature>) {
    exists s :: s in signatures && s.valid
  }

  ghost function DkimVerdict(cfg: Config, mail: Mail): AuthCheck {
    if !cfg.dkim.Enabled() || mail.signatures == [] then AuthNone
    else if SomeValid(mail.signatures) then AuthPass
    else AuthFail
  }

  ghost predicate SpfAligned(spf: AuthCheck, mail: Mail, record: DmarcRecord) {
    spf == AuthPass && Aligns(EnvelopeDomain(mail), FromDomain(mail), !record.strictSpf)
  }

  ghost predicate DkimAligned(cfg: Config, mail: Mail, record: DmarcRecord) {
    && cfg.dkim.Enabled()
    && exists s :: s in mail.signatures && s.valid && Aligns(s.domain, FromDomain(mail), !record.strictDkim)
  }

  ghost function DmarcVerdict(cfg: Config, mail: Mail, chain: ArcResult): AuthCheck {
    var from := FromDomain(mail);
    if !cfg.dmarc.Enabled() || from == "" then AuthNone
    else if chain.dmarc != AuthNone then chain.dmarc
    else if from !in mail.records then AuthNone
    else if SpfAligned(SpfVerdict(cfg, mail, chain), mail, mail.records[from])
            || DkimAligned(cfg, mail, mail.records[from]) then AuthPass
    else AuthFail
  }

  ghost function Verdicts(cfg: Config, mail: Mail): AuthResult {
    VerdictsWith(cfg, mail, ChainOf(mail.headers))
  }

  ghost function VerdictsWith(cfg: Config, mail: Mail, chain: ArcResult): AuthResult {
    AuthResult(
      SpfVerdict(cfg, mail, chain),
      DkimVerdict(cfg, mail),
      DmarcVerdict(cfg, mail, chain),
      if chain.passed then AuthPass else AuthNone)
  }

  // ---------- The decision ----------

  function ModeOf(cfg: Config, check: Check): Mode {
    match check case SPF => cfg.spf case DKIM => cfg.dkim case DMARC => cfg.dmarc
  }

  function VerdictOf(result: AuthResult, check: Check): AuthCheck {
    match check case SPF => result.spf case DKIM => result.dkim case DMARC => result.dmarc
  }

  function Rank(check: Check): nat {
    match check case SPF => 0 case DKIM => 1 case DMARC => 2
  }

  predicate Refuses(cfg: Config, verdicts: AuthResult, check: Check) {
    ModeOf(cfg, check).Enforced() && VerdictOf(verdicts, check) == AuthFail
  }

  /** The first enforced check that fails, None when there is none. */
  ghost predicate IsRefusal(cfg: Config, verdicts: AuthResult, refused: Option<Check>) {
    && (refused.None? ==> forall check :: !Refuses(cfg, verdicts, check))
    && (refused.Some? ==>
          && Refuses(cfg, verdicts, refused.value)
          && forall check :: Rank(check) < Rank(refused.value) ==> !Refuses(cfg, verdicts, check))
  }

  /** The run stopped at the first enforced check that fails, and nothing after that
      check was looked at. */
  ghost predicate IsDecision(cfg: Config, mail: Mail, result: AuthResult, refused: Option<Check>) {
    var verdicts := Verdicts(cfg, mail);
    && IsRefusal(cfg, verdicts, refused)
    && result.arc == verdicts.arc
    && (forall check :: VerdictOf(result, check) ==
                        if refused.Some? && Rank(check) > Rank(refused.value) then AuthNone
                        else VerdictOf(verdicts, check))
  }

  /** The DKIM part of VerifyAuth: the result and the domains that signed. */
  method CheckSignatures(signatures: seq<Signature>) returns (verdict: AuthCheck, domains: seq<string>)
    ensures verdict == if signatures == [] then AuthNone else if SomeValid(signatures) then AuthPass else AuthFail
    ensures forall d :: d in domains <==> exists s :: s in signatures && s.valid && d == Lower(s.domain)
  {
    verdict, domains := AuthNone, [];
    for k := 0 to |signatures|
      invariant verdict == AuthPass || verdict == AuthNone
      invariant verdict == AuthPass <==> exists j :: 0 <= j < k && signatures[j].valid
      invariant forall d :: d in domains <==> exists j :: 0 <= j < k && signatures[j].valid && d == Lower(signatures[j].domain)
    {
      if signatures[k].valid {
        verdict, domains := AuthPass, domains + [Lower(signatures[k].domain)];
      }
    }
    if |signatures| > 0 && verdict != AuthPass {
      verdict := AuthFail;
    }
  }

  /** The loop over the signing domains in the DMARC part of VerifyAuth. */
  method AnyAligns(domains: seq<string>, from: string, relaxed: bool) returns (aligned: bool)
    ensures aligned <==> exists d :: d in domains && Aligns(d, from, relaxed)
  {
    for k := 0 to |domains|
      invariant forall j :: 0 <= j < k ==> !Aligns(domains[j], from, relaxed)
    {
      if Aligns(domains[k], from, relaxed) {
        return true;
      }
    }
    aligned := false;
  }

  lemma LoweredAligns(d: string, from: string, relaxed: bool)
    ensures Aligns(Lower(d), from, relaxed) <==> Aligns(d, from, relaxed)
  {
    LowerIdempotent(d);
  }

  /** What CheckSignatures leaves for DMARC: no domain when DKIM is off. */
  ghost predicate SigningDomains(cfg: Config, mail: Mail, domains: seq<string>) {
    && (cfg.dkim.Enabled() ==>
          forall d :: d in domains <==> exists s :: s in mail.signatures && s.valid && d == Lower(s.domain))
    && (!cfg.dkim.Enabled() ==> domains == [])
  }

  lemma SignersAlign(cfg: Config, mail: Mail, record: DmarcRecord, domains: seq<string>)
    requires SigningDomains(cfg, mail, domains)
    ensures DkimAligned(cfg, mail, record) <==> exists d :: d in domains && Aligns(d, FromDomain(mail), !record.strictDkim)
  {
    forall s | s in mail.signatures
      ensures Aligns(Lower(s.domain), FromDomain(mail), !record.strictDkim) <==> Aligns(s.domain, FromDomain(mail), !record.strictDkim)
    {
      LoweredAligns(s.domain, FromDomain(mail), !record.strictDkim);
    }
    if DkimAligned(cfg, mail, record) {
      var s :| s in mail.signatures && s.valid && Aligns(s.domain, FromDomain(mail), !record.strictDkim);
      assert Lower(s.domain) in domains;
    }
  }

  /** The alignment part of VerifyAuth, once the record is found. */
  method CheckRecord(ghost cfg: Config, mail: Mail, record: DmarcRecord, spf: AuthCheck, domains: seq<string>)
    returns (verdict: AuthCheck)
    requires SigningDomains(cfg, mail, domains)
    ensures verdict == if SpfAligned(spf, mail, record) || DkimAligned(cfg, mail, record) then AuthPass else AuthFail
  {
    var from := FromDomain(mail);
    var spfAligned := spf == AuthPass && Aligns(EnvelopeDomain(mail), from, !record.strictSpf);
    var dkimAligned := AnyAligns(domains, from, !record.strictDkim);
    SignersAlign(cfg, mail, record, domains);
    verdict := if spfAligned || dkimAligned then AuthPass else AuthFail;
  }

  lemma DecisionMade(cfg: Config, mail: Mail, verdicts: AuthResult, result: AuthResult, refused: Option<Check>)
    requires verdicts == Verdicts(cfg, mail) && result.arc == verdicts.arc && result.spf == verdicts.spf
    requires refused == Some(SPF) ==> result.dkim == AuthNone
    requires refused != Some(SPF) ==> result.dkim == verdicts.dkim && !Refuses(cfg, verdicts, SPF)
    requires refused in {Some(SPF), Some(DKIM)} ==> result.dmarc == AuthNone
    requires refused !in {Some(SPF), Some(DKIM)} ==> result.dmarc == verdicts.dmarc && !Refuses(cfg, verdicts, DKIM)
    requires refused.None? ==> !Refuses(cfg, verdicts, DMARC)
    requires refused.Some? ==> Refuses(cfg, verdicts, refused.value)
    ensures IsDecision(cfg, mail, result, refused)
  {
  }

  /** VerifyAuth. */
  method VerifyAuth(cfg: Config, mail: Mail) returns (result: AuthResult, refused: Option<Check>)
    ensures IsDecision(cfg, mail, result, refused)
  {
    result := AuthResult(AuthNone, AuthNone, AuthNone, AuthNone);
    var envelopeFrom := EnvelopeDomain(mail);
    var from := FromDomain(mail);
    var arc := CheckArcChain(mail.headers);
    ghost var verdicts := VerdictsWith(cfg, mail, arc);
    if arc.passed {
      result := result.(arc := AuthPass);
    }
    if cfg.spf.Enabled() && mail.hasIp && envelopeFrom != "" {
      if arc.passed && arc.spf != AuthNone {
        result := result.(spf := arc.spf);
      } else {
        result := result.(spf := OfAnswer(mail.spf));
      }
      if cfg.spf.Enforced() && result.spf == AuthFail {
        DecisionMade(cfg, mail, verdicts, result, Some(SPF));
        return result, Some(SPF);
      }
    }
    assert result.spf == verdicts.spf && !Refuses(cfg, verdicts, SPF);
    var passDomains := [];
    if cfg.dkim.Enabled() {
      var verdict, domains := CheckSignatures(mail.signatures);
      passDomains := domains;
      result := result.(dkim := verdict);
      if cfg.dkim.Enforced() && result.dkim == AuthFail {
        DecisionMade(cfg, mail, verdicts, result, Some(DKIM));
        return result, Some(DKIM);
      }
    }
    assert result.dkim == verdicts.dkim && !Refuses(cfg, verdicts, DKIM);
    assert SigningDomains(cfg, mail, passDomains);
    if cfg.dmarc.Enabled() && from != "" {
      if arc.passed && arc.dmarc != AuthNone {
        result := result.(dmarc := arc.dmarc);
      } else if from in mail.records {
        var verdict := CheckRecord(cfg, mail, mail.records[from], result.spf, passDomains);
        result := result.(dmarc := verdict);
      }
      if cfg.dmarc.Enforced() && result.dmarc == AuthFail {
        DecisionMade(cfg, mail, verdicts, result, Some(DMARC));
        return result, Some(DMARC);
      }
    }
    refused := None;
    DecisionMade(cfg, mail, verdicts, result, None);
  }

  // ---------- What the parts mean ----------

  /** The DMARC domain is that of the From header, in lower case; when the header has no
      address, no at sign or nothing behind it, it is the domain of the envelope sender. */
  lemma FromDomainMeans(mail: Mail, local: string, domain: string)
    requires '@' !in local
    ensures domain != "" && mail.headerFrom == Some(local + "@" + domain) ==> FromDomain(mail) == Lower(domain)
    ensures mail.headerFrom in {None, Some(local), Some(local + "@")} ==> FromDomain(mail) == EnvelopeDomain(mail)
    ensures mail.sender == local + "@" + domain ==> EnvelopeDomain(mail) == domain
    ensures mail.sender == local ==> EnvelopeDomain(mail) == ""
  {
    AfterAtMeans(local, domain);
    AfterAtMeans(local, "");
    assert local + "@" + "" == local + "@";
  }

  /** SPF passes on a kept pass or, nothing being kept, on a live pass alone; it fails on a
      kept failure or a live fail or softfail. It applies unless it is switched off, the
      address is unknown or the sender has no domain. */
  lemma SpfMeans(cfg: Config, mail: Mail)
    ensures var verdict, kept := Verdicts(cfg, mail).spf, ChainOf(mail.headers).spf;
      var applies := cfg.spf != Off && mail.hasIp && EnvelopeDomain(mail) != "";
      && (verdict == AuthPass <==> applies && (kept == AuthPass || (kept == AuthNone && mail.spf == SpfPass)))
      && (verdict == AuthFail <==> applies && (kept == AuthFail || (kept == AuthNone && mail.spf in {SpfFail, SpfSoftFail})))
  {
  }

  lemma DkimMeans(cfg: Config, mail: Mail)
    ensures var verdict := Verdicts(cfg, mail).dkim;
      && (verdict == AuthPass <==> cfg.dkim != Off && exists k :: 0 <= k < |mail.signatures| && mail.signatures[k].valid)
      && (verdict == AuthNone <==> cfg.dkim == Off || mail.signatures == [])
  {
    if SomeValid(mail.signatures) {
      var s :| s in mail.signatures && s.valid;
      var k :| 0 <= k < |mail.signatures| && mail.signatures[k] == s;
    }
  }

  /** Some valid signature is aligned with the domain. */
  ghost predicate SignedFor(mail: Mail, domain: string, relaxed: bool) {
    exists k :: 0 <= k < |mail.signatures| && mail.signatures[k].valid && Aligns(mail.signatures[k].domain, domain, relaxed)
  }

  lemma SignedForMeans(cfg: Config, mail: Mail, record: DmarcRecord)
    ensures DkimAligned(cfg, mail, record) <==> cfg.dkim != Off && SignedFor(mail, FromDomain(mail), !record.strictDkim)
  {
    if DkimAligned(cfg, mail, record) {
      var s :| s in mail.signatures && s.valid && Aligns(s.domain, FromDomain(mail), !record.strictDkim);
      var k :| 0 <= k < |mail.signatures| && mail.signatures[k] == s;
    }
  }

  /** DMARC passes on a kept pass or, nothing being kept, if the domain has a record and SPF
      passed for an aligned sender or an aligned signature is valid; with a record and
      neither it fails. */
  lemma DmarcMeans(cfg: Config, mail: Mail)
    ensures var verdicts, kept, from := Verdicts(cfg, mail), ChainOf(mail.headers).dmarc, FromDomain(mail);
      var aligned := from in mail.records &&
        ((verdicts.spf == AuthPass && Aligns(EnvelopeDomain(mail), from, !mail.records[from].strictSpf))
         || (cfg.dkim != Off && SignedFor(mail, from, !mail.records[from].strictDkim)));
      && (verdicts.dmarc == AuthPass <==> cfg.dmarc != Off && from != "" && (kept == AuthPass || (kept == AuthNone && aligned)))
      && (verdicts.dmarc == AuthFail <==>
            cfg.dmarc != Off && from != "" && (kept == AuthFail || (kept == AuthNone && from in mail.records && !aligned)))
  {
    if FromDomain(mail) in mail.records {
      SignedForMeans(cfg, mail, mail.records[FromDomain(mail)]);
    }
  }

  lemma RefusalSpelled(cfg: Config, verdicts: AuthResult, refused: Option<Check>)
    requires IsRefusal(cfg, verdicts, refused)
    ensures var bySpf, byDkim, byDmarc := cfg.spf == Enforce && verdicts.spf == AuthFail,
                                          cfg.dkim == Enforce && verdicts.dkim == AuthFail,
                                          cfg.dmarc == Enforce && verdicts.dmarc == AuthFail;
      refused == if bySpf then Some(SPF) else if byDkim then Some(DKIM) else if byDmarc then Some(DMARC) else None
  {
    assert Refuses(cfg, verdicts, SPF) <==> cfg.spf == Enforce && verdicts.spf == AuthFail;
    assert Refuses(cfg, verdicts, DKIM) <==> cfg.dkim == Enforce && verdicts.dkim == AuthFail;
    assert Refuses(cfg, verdicts, DMARC) <==> cfg.dmarc == Enforce && verdicts.dmarc == AuthFail;
  }

  lemma ReportSpelled(verdicts: AuthResult, result: AuthResult, refused: Option<Check>)
    requires result.arc == verdicts.arc
    requires forall check :: VerdictOf(result, check) ==
                             (if refused.Some? && Rank(check) > Rank(refused.value) then AuthNone else VerdictOf(verdicts, check))
    ensures result == AuthResult(
      verdicts.spf,
      if refused == Some(SPF) then AuthNone else verdicts.dkim,
      if refused == Some(SPF) || refused == Some(DKIM) then AuthNone else verdicts.dmarc,
      verdicts.arc)
  {
    assert VerdictOf(result, SPF) == result.spf && VerdictOf(result, DKIM) == result.dkim && VerdictOf(result, DMARC) == result.dmarc;
  }

  /** The decision, check by check: the first one that is enforced and fails refuses; what
      comes after it is not reported. */
  lemma DecisionSpelled(cfg: Config, mail: Mail, result: AuthResult, refused: Option<Check>)
    requires IsDecision(cfg, mail, result, refused)
    ensures var verdicts := Verdicts(cfg, mail);
      var bySpf, byDkim, byDmarc := cfg.spf == Enforce && verdicts.spf == AuthFail,
                                    cfg.dkim == Enforce && verdicts.dkim == AuthFail,
                                    cfg.dmarc == Enforce && verdicts.dmarc == AuthFail;
      && refused == (if bySpf then Some(SPF) else if byDkim then Some(DKIM) else if byDmarc then Some(DMARC) else None)
      && result == AuthResult(
           verdicts.spf,
           if refused == Some(SPF) then AuthNone else verdicts.dkim,
           if refused == Some(SPF) || refused == Some(DKIM) then AuthNone else verdicts.dmarc,
           if ChainOf(mail.headers).passed then AuthPass else AuthNone)
  {
    RefusalSpelled(cfg, Verdicts(cfg, mail), refused);
    ReportSpelled(Verdicts(cfg, mail), result, refused);
  }

  /** DMARC protects the From header. For a message with an address there, and nothing
      kept, enforced DMARC refuses exactly if no earlier check did, the domain of that
      address has a record, no sender domain that passed SPF is aligned with it, and no
      valid signature is. So a forged From header of a domain with a record does not get
      through, whatever the envelope says. */
  lemma DmarcRefusesExactly(cfg: Config, mail: Mail, result: AuthResult, refused: Option<Check>, local: string, domain: string)
    requires IsDecision(cfg, mail, result, refused) && cfg.dmarc == Enforce
    requires '@' !in local && domain != "" && mail.headerFrom == Some(local + "@" + domain)
    requires ChainOf(mail.headers).dmarc == AuthNone
    ensures refused == Some(DMARC) <==>
      && refused != Some(SPF) && refused != Some(DKIM)
      && Lower(domain) in mail.records
      && !(result.spf == AuthPass && Aligns(EnvelopeDomain(mail), domain, !mail.records[Lower(domain)].strictSpf))
      && !(cfg.dkim != Off && SignedFor(mail, domain, !mail.records[Lower(domain)].strictDkim))
    ensures
      && Lower(domain) in mail.records
      && !Aligns(EnvelopeDomain(mail), domain, !mail.records[Lower(domain)].strictSpf)
      && (forall k :: 0 <= k < |mail.signatures| ==> !mail.signatures[k].valid)
      ==> refused.Some?
  {
    FromDomainMeans(mail, local, domain);
    assert Lower(domain) != "";
    DmarcMeans(cfg, mail);
    DecisionSpelled(cfg, mail, result, refused);
    LowerIdempotent(domain);
    assert SignedFor(mail, Lower(domain), true) == SignedFor(mail, domain, true);
    assert SignedFor(mail, Lower(domain), false) == SignedFor(mail, domain, false);
  }

  // ---------- Two runs ----------

  function Logged(m: Mode): Mode {
    if m.Enforce? then Log else m
  }

  /** Every enforced check is only logged. */
  function LogOnly(cfg: Config): Config {
    Config(Logged(cfg.spf), Logged(cfg.dkim), Logged(cfg.dmarc))
  }

  /** What the checks say depends on which are enabled, never on which are enforced. */
  lemma VerdictsIgnoreEnforcement(cfg: Config, other: Config, mail: Mail)
    requires forall check :: ModeOf(cfg, check).Enabled() == ModeOf(other, check).Enabled()
    ensures Verdicts(cfg, mail) == Verdicts(other, mail)
  {
    assert ModeOf(cfg, SPF).Enabled() == ModeOf(other, SPF).Enabled();
    assert ModeOf(cfg, DKIM).Enabled() == ModeOf(other, DKIM).Enabled();
    assert ModeOf(cfg, DMARC).Enabled() == ModeOf(other, DMARC).Enabled();
    var from := FromDomain(mail);
    if from in mail.records {
      assert DkimAligned(cfg, mail, mail.records[from]) == DkimAligned(other, mail, mail.records[from]);
    }
  }

  /** An enforcing run and a logging run of the same message: logging never refuses;
      enforcing refuses exactly when the logging run shows a failure in an enforced
      check, and otherwise both report the same. */
  lemma EnforceRefinesLog(cfg: Config, mail: Mail, result: AuthResult, refused: Option<Check>,
                          logged: AuthResult, loggedRefused: Option<Check>)
    requires IsDecision(cfg, mail, result, refused)
    requires IsDecision(LogOnly(cfg), mail, logged, loggedRefused)
    ensures loggedRefused == None && logged.arc == result.arc
    ensures refused.Some? <==> exists check :: Refuses(cfg, logged, check)
    ensures refused.Some? ==>
              && Refuses(cfg, logged, refused.value)
              && forall check :: Refuses(cfg, logged, check) ==> Rank(refused.value) <= Rank(check)
    ensures refused.None? ==> result == logged
  {
    VerdictsIgnoreEnforcement(cfg, LogOnly(cfg), mail);
    assert forall check :: !ModeOf(LogOnly(cfg), check).Enforced();
    SameVerdicts(logged, Verdicts(cfg, mail));
    if refused.None? {
      SameVerdicts(result, Verdicts(cfg, mail));
    }
  }

  lemma SameVerdicts(a: AuthResult, b: AuthResult)
    requires a.arc == b.arc && forall check :: VerdictOf(a, check) == VerdictOf(b, check)
    ensures a == b
  {
    assert VerdictOf(a, SPF) == VerdictOf(b, SPF);
    assert VerdictOf(a, DKIM) == VerdictOf(b, DKIM);
    assert VerdictOf(a, DMARC) == VerdictOf(b, DMARC);
  }

  lemma UniqueRefusal(cfg: Config, verdicts: AuthResult, a: Option<Check>, b: Option<Check>)
    requires IsRefusal(cfg, verdicts, a) && IsRefusal(cfg, verdicts, b)
    ensures a == b
  {
    if a.Some? && b.Some? {
      assert Rank(a.value) == Rank(b.value);
    }
  }

  /** The decision is a function of the settings and the message. */
  lemma DecisionIsUnique(cfg: Config, mail: Mail, a: AuthResult, ra: Option<Check>, b: AuthResult, rb: Option<Check>)
    requires IsDecision(cfg, mail, a, ra) && IsDecision(cfg, mail, b, rb)
    ensures a == b && ra == rb
  {
    UniqueRefusal(cfg, Verdicts(cfg, mail), ra, rb);
    SameVerdicts(a, b);
  }

  /** Enforcing more checks can only refuse more, and never at a later check. */
  lemma EnforcingMoreRefusesMore(cfg: Config, stricter: Config, mail: Mail, a: AuthResult, ra: Option<Check>,
                                 b: AuthResult, rb: Option<Check>)
    requires forall check :: ModeOf(cfg, check).Enabled() == ModeOf(stricter, check).Enabled()
    requires forall check :: ModeOf(cfg, check).Enforced() ==> ModeOf(stricter, check).Enforced()
    requires IsDecision(cfg, mail, a, ra) && IsDecision(stricter, mail, b, rb)
    ensures ra.Some? ==> rb.Some? && Rank(rb.value) <= Rank(ra.value)
  {
    VerdictsIgnoreEnforcement(cfg, stricter, mail);
    if ra.Some? {
      assert Refuses(stricter, Verdicts(stricter, mail), ra.value);
    }
  }

  // ---------- What settles a message ----------

  /** Neither the order of the signatures nor that of the seals matters. */
  lemma OrderDoesNotMatter(cfg: Config, mail: Mail, signatures: seq<Signature>, seals: seq<string>)
    requires multiset(mail.signatures) == multiset(signatures)
    requires mail.headers.Parsed? && multiset(mail.headers.seals) == multiset(seals)
    ensures Verdicts(cfg, mail) == Verdicts(cfg, mail.(signatures := signatures, headers := Parsed(seals, mail.headers.results)))
  {
    SealOrder(mail.headers.seals, seals, mail.headers.results);
    SignatureOrder(cfg, mail, signatures);
    HeadersThroughChain(cfg, mail.(signatures := signatures), Parsed(seals, mail.headers.results), ChainOf(mail.headers));
  }

  lemma SignatureOrder(cfg: Config, mail: Mail, signatures: seq<Signature>)
    requires multiset(mail.signatures) == multiset(signatures)
    ensures Verdicts(cfg, mail) == Verdicts(cfg, mail.(signatures := signatures))
  {
    var other := mail.(signatures := signatures);
    forall s ensures s in mail.signatures <==> s in signatures {
      SameMembers(mail.signatures, signatures, s);
    }
    assert |mail.signatures| == |multiset(signatures)| == |signatures|;
    var from := FromDomain(mail);
    if from in mail.records {
      assert DkimAligned(cfg, mail, mail.records[from]) == DkimAligned(cfg, other, mail.records[from]);
    }
  }

  lemma HeadersThroughChain(cfg: Config, mail: Mail, headers: Message, chain: ArcResult)
    ensures VerdictsWith(cfg, mail, chain) == VerdictsWith(cfg, mail.(headers := headers), chain)
  {
    var other := mail.(headers := headers);
    var from := FromDomain(mail);
    if from in mail.records {
      assert DkimAligned(cfg, mail, mail.records[from]) == DkimAligned(cfg, other, mail.records[from]);
    }
  }

  /** The live SPF answer is asked for. */
  ghost predicate AsksSpf(cfg: Config, mail: Mail) {
    cfg.spf.Enabled() && mail.hasIp && EnvelopeDomain(mail) != "" && ChainOf(mail.headers).spf == AuthNone
  }

  /** The DMARC record is looked up. */
  ghost predicate AsksDmarc(cfg: Config, mail: Mail) {
    cfg.dmarc.Enabled() && FromDomain(mail) != "" && ChainOf(mail.headers).dmarc == AuthNone
  }

  /** The live SPF answer has a say exactly if no passing chain kept an SPF result and
      the check applies. */
  lemma LiveSpfMatters(cfg: Config, mail: Mail)
    ensures (forall answer: SpfAnswer :: Verdicts(cfg, mail.(spf := answer)) == Verdicts(cfg, mail)) <==> !AsksSpf(cfg, mail)
    ensures ChainOf(mail.headers).spf != AuthNone || ChainOf(mail.headers).dmarc != AuthNone ==> Verdicts(cfg, mail).arc == AuthPass
  {
    var passing, failing := mail.(spf := SpfPass), mail.(spf := SpfFail);
    if AsksSpf(cfg, mail) {
      assert Verdicts(cfg, passing).spf == AuthPass && Verdicts(cfg, failing).spf == AuthFail;
    } else {
      forall answer: SpfAnswer ensures Verdicts(cfg, mail.(spf := answer)) == Verdicts(cfg, mail) {
        SpfUnasked(cfg, mail, answer);
      }
    }
  }

  lemma SpfUnasked(cfg: Config, mail: Mail, answer: SpfAnswer)
    requires !AsksSpf(cfg, mail)
    ensures Verdicts(cfg, mail.(spf := answer)) == Verdicts(cfg, mail)
  {
    var other, chain := mail.(spf := answer), ChainOf(mail.headers);
    assert SpfVerdict(cfg, other, chain) == SpfVerdict(cfg, mail, chain);
    SpfAside(cfg, mail, answer, chain);
  }

  /** The answer reaches DMARC through the SPF verdict only. */
  lemma SpfAside(cfg: Config, mail: Mail, answer: SpfAnswer, chain: ArcResult)
    requires SpfVerdict(cfg, mail.(spf := answer), chain) == SpfVerdict(cfg, mail, chain)
    ensures DmarcVerdict(cfg, mail.(spf := answer), chain) == DmarcVerdict(cfg, mail, chain)
    ensures DkimVerdict(cfg, mail.(spf := answer)) == DkimVerdict(cfg, mail)
  {
    var other, from := mail.(spf := answer), FromDomain(mail);
    if from in mail.records {
      assert DkimAligned(cfg, mail, mail.records[from]) == DkimAligned(cfg, other, mail.records[from]);
    }
  }

  /** The DNS records have a say exactly if no passing chain kept a DMARC result and the
      check applies. */
  lemma RecordsMatter(cfg: Config, mail: Mail)
    ensures (forall records: map<string, DmarcRecord> :: Verdicts(cfg, mail.(records := records)) == Verdicts(cfg, mail))
            <==> !AsksDmarc(cfg, mail)
  {
    if AsksDmarc(cfg, mail) {
      var bare, full := mail.(records := map[]), mail.(records := map[FromDomain(mail) := DmarcRecord(false, false)]);
      assert Verdicts(cfg, bare).dmarc == AuthNone && Verdicts(cfg, full).dmarc != AuthNone;
    }
  }

  /** Exactly when SPF refuses a message: it is enforced and applies, and the kept result
      or, without one, the live answer is a failure. Neutral and missing answers,
      temporary and permanent errors never are. */
  lemma SpfRefusesExactly(cfg: Config, mail: Mail, result: AuthResult, refused: Option<Check>)
    requires IsDecision(cfg, mail, result, refused)
    ensures refused == Some(SPF) <==>
              && cfg.spf.Enforced() && mail.hasIp && EnvelopeDomain(mail) != ""
              && (ChainOf(mail.headers).spf == AuthFail
                  || (ChainOf(mail.headers).spf == AuthNone && mail.spf in {SpfFail, SpfSoftFail}))
  {
    assert Refuses(cfg, Verdicts(cfg, mail), SPF) <==> refused == Some(SPF);
  }

  /** DMARC rests on the other two checks. With both switched off and DMARC enforced, a
      message is refused exactly if it has a From domain and its passing chain kept a
      DMARC failure or, nothing being kept, the domain publishes a record: no message of
      a domain with a record gets through but by a kept pass. */
  lemma DmarcAloneRefuses(cfg: Config, mail: Mail, result: AuthResult, refused: Option<Check>)
    requires cfg.spf.Off? && cfg.dkim.Off? && cfg.dmarc.Enforced()
    requires IsDecision(cfg, mail, result, refused)
    ensures refused == Some(DMARC) <==>
              && FromDomain(mail) != ""
              && (ChainOf(mail.headers).dmarc == AuthFail
                  || (ChainOf(mail.headers).dmarc == AuthNone && FromDomain(mail) in mail.records))
    ensures refused == None || refused == Some(DMARC)
  {
    var verdicts := Verdicts(cfg, mail);
    assert verdicts.spf == AuthNone && verdicts.dkim == AuthNone;
    assert !Refuses(cfg, verdicts, SPF) && !Refuses(cfg, verdicts, DKIM);
    assert Refuses(cfg, verdicts, DMARC) <==> refused == Some(DMARC);
  }

  /** A valid signature of a subdomain carries the From domain under a relaxed record,
      whatever else the message has. Under a strict record it adds nothing: the verdict
      is what it would be without this signature. */
  lemma SubdomainSignature(cfg: Config, mail: Mail, k: nat, prefix: string, domain: string)
    requires cfg.dkim.Enabled() && AsksDmarc(cfg, mail) && FromDomain(mail) in mail.records
    requires k < |mail.signatures| && mail.signatures[k] == Signature(prefix + "." + domain, true)
    requires Lower(domain) == Lower(FromDomain(mail)) && Labels(domain) >= 2
    ensures !mail.records[FromDomain(mail)].strictDkim ==> Verdicts(cfg, mail).dmarc == AuthPass
    ensures mail.records[FromDomain(mail)].strictDkim ==>
              Verdicts(cfg, mail).dmarc
              == Verdicts(cfg, mail.(signatures := mail.signatures[..k] + mail.signatures[k + 1..])).dmarc
  {
    var from, signer := FromDomain(mail), prefix + "." + domain;
    var record := mail.records[from];
    SubdomainsShareOrg(prefix, domain);
    OrgOfLower(domain);
    OrgOfLower(from);
    AlignsMeans(signer, from);
    assert mail.signatures[k] in mail.signatures;
    if record.strictDkim {
      assert |Lower(signer)| > |Lower(from)|;
      WithoutSigner(cfg, mail, k, record);
    }
  }

  lemma WithoutSigner(cfg: Config, mail: Mail, k: nat, record: DmarcRecord)
    requires k < |mail.signatures| && !Aligns(mail.signatures[k].domain, FromDomain(mail), !record.strictDkim)
    ensures DkimAligned(cfg, mail, record)
            <==> DkimAligned(cfg, mail.(signatures := mail.signatures[..k] + mail.signatures[k + 1..]), record)
  {
    var rest := mail.signatures[..k] + mail.signatures[k + 1..];
    assert mail.signatures == mail.signatures[..k] + ([mail.signatures[k]] + mail.signatures[k + 1..]);
    assert forall s :: s in mail.signatures <==> s in rest || s == mail.signatures[k];
  }
}
