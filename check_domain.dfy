/** The public domain-health endpoint (src/pages/api/check-domain.js): request
    guards, the domain-format check, and the live-data report with its health score. */
module CheckDomain {
  import opened Text
  import opened Dns
  import opened Blacklist
  import opened LiveRecords

  // ---------------------------------------------------------------- domain format

  predicate IsAlnum(c: char) {
    'a' <= c <= 'z' || 'A' <= c <= 'Z' || '0' <= c <= '9'
  }

  predicate IsLabelChar(c: char) {
    IsAlnum(c) || c == '-'
  }

  /** One label of the format regex: an alphanumeric, up to 61 alphanumerics or
      hyphens, an alphanumeric; so 2 to 63 characters. */
  predicate ValidLabel(l: string) {
    2 <= |l| <= 63 && IsAlnum(l[0]) && IsAlnum(l[|l| - 1]) &&
    forall i :: 0 < i < |l| - 1 ==> IsLabelChar(l[i])
  }

  /** The pieces of `s` between dots. */
  function Split(s: string): (parts: seq<string>)
    ensures |parts| >= 1
    ensures forall p :: p in parts ==> '.' !in p
  {
    if s == [] then [""]
    else
      var rest := Split(s[1..]);
      if s[0] == '.' then [""] + rest
      else
        assert rest[0] in rest;
        [[s[0]] + rest[0]] + rest[1..]
  }

  /** The labels joined by dots. */
  function Join(parts: seq<string>): string
    requires |parts| >= 1
  {
    if |parts| == 1 then parts[0] else parts[0] + "." + Join(parts[1..])
  }

  /** The format test the handler applies, label by label. */
  predicate ValidDomain(s: string) {
    forall p :: p in Split(s) ==> ValidLabel(p)
  }

  /** What the format regex accepts: one or more valid labels joined by dots. */
  ghost predicate MatchesDomainRegex(s: string) {
    exists labels: seq<string> :: |labels| >= 1 && (forall l :: l in labels ==> ValidLabel(l)) && Join(labels) == s
  }

  lemma {:induction false} JoinSplit(s: string)
    ensures Join(Split(s)) == s
  {
    if s != [] {
      var rest := Split(s[1..]);
      JoinSplit(s[1..]);
      if s[0] == '.' {
        assert s == "." + s[1..];
      } else {
        if |rest| == 1 {
          assert s == [s[0]] + s[1..];
        } else {
          assert rest == [rest[0]] + rest[1..];
          assert Join(rest) == rest[0] + "." + Join(rest[1..]);
          assert s == [s[0]] + rest[0] + "." + Join(rest[1..]);
        }
      }
    }
  }

  /** Splitting a dot-free prefix followed by more text. */
  lemma {:induction false} SplitPrefix(a: string, rest: string)
    requires '.' !in a
    ensures Split(a + rest) == [a + Split(rest)[0]] + Split(rest)[1..]
  {
    if a != [] {
      assert a[0] in a;
      assert (a + rest)[1..] == a[1..] + rest;
      assert forall c :: c in a[1..] ==> c in a;
      SplitPrefix(a[1..], rest);
      var r := Split(a[1..] + rest);
      var t := Split(rest);
      assert r[0] == a[1..] + t[0] && r[1..] == t[1..];
      assert Split(a + rest) == [[a[0]] + r[0]] + r[1..];
      assert [a[0]] + (a[1..] + t[0]) == a + t[0];
    } else {
      assert a + rest == rest;
      var t := Split(rest);
      assert t == [t[0]] + t[1..];
      assert a + t[0] == t[0];
    }
  }

  lemma {:induction false} SplitJoin(parts: seq<string>)
    requires |parts| >= 1 && forall p :: p in parts ==> '.' !in p
    ensures Split(Join(parts)) == parts
  {
    assert parts[0] in parts;
    if |parts| == 1 {
      SplitPrefix(parts[0], "");
      assert parts[0] + "" == parts[0];
      assert Split("") == [""];
      assert Split(parts[0]) == [parts[0] + ""];
    } else {
      assert forall p :: p in parts[1..] ==> p in parts;
      SplitJoin(parts[1..]);
      var tail := "." + Join(parts[1..]);
      assert Join(parts) == parts[0] + tail;
      SplitPrefix(parts[0], tail);
      assert tail[0] == '.' && tail[1..] == Join(parts[1..]);
      assert Split(tail) == [""] + Split(tail[1..]);
      assert Split(tail) == [""] + parts[1..];
      assert parts[0] + "" == parts[0];
      assert parts == [parts[0]] + parts[1..];
    }
  }

  /** The label-by-label test accepts exactly what the format regex accepts. */
  lemma DomainFormatIsRegex(s: string)
    ensures ValidDomain(s) <==> MatchesDomainRegex(s)
  {
    if ValidDomain(s) {
      JoinSplit(s);
      assert |Split(s)| >= 1 && (forall l :: l in Split(s) ==> ValidLabel(l)) && Join(Split(s)) == s;
    }
    if MatchesDomainRegex(s) {
      var labels: seq<string> :| |labels| >= 1 && (forall l :: l in labels ==> ValidLabel(l)) && Join(labels) == s;
      forall l | l in labels ensures '.' !in l {
        assert ValidLabel(l);
        forall i | 0 <= i < |l| ensures l[i] != '.' {
          assert IsLabelChar(l[i]);
        }
      }
      SplitJoin(labels);
    }
  }

  /** Every label needs two characters, so a one-character first label is
      refused, whether more labels follow or the domain is that one character. */
  lemma OneLetterLabelRefused(c: char, rest: string)
    ensures !ValidDomain([c])
    ensures !ValidDomain([c] + "." + rest)
  {
    var s := [c] + "." + rest;
    assert s == [c] + ("." + rest);
    if c == '.' {
      assert s == "" + ".." + rest;
      DoubledDotRefused("", rest);
      assert Split([c])[0] == "" by {
        assert [c][1..] == [];
      }
    } else {
      assert Split([c]) == [[c]] by {
        assert [c][1..] == [];
        assert Split([]) == [""];
        assert [c] + "" == [c];
      }
      SplitPrefix([c], "." + rest);
      assert Split("." + rest)[0] == "";
      assert Split(s)[0] == [c];
      assert Split(s)[0] in Split(s);
    }
    assert Split([c])[0] in Split([c]);
  }

  /** A doubled dot leaves an empty label, wherever it stands. */
  lemma DoubledDotRefused(a: string, b: string)
    ensures !ValidDomain(a + ".." + b)
  {
    assert a + ".." + b == a + (".." + b);
    EmptyLabelAfterDot(a, ".." + b);
    assert !ValidLabel("");
  }

  /** Some label after the first is empty when two dots follow `a`. */
  lemma {:induction false} EmptyLabelAfterDot(a: string, t: string)
    requires |t| >= 2 && t[0] == '.' && t[1] == '.'
    ensures "" in Split(a + t)[1..]
  {
    if a == [] {
      assert a + t == t;
      assert t[1..][0] == '.';
      assert Split(t[1..]) == [""] + Split(t[1..][1..]);
      assert Split(t) == [""] + Split(t[1..]);
    } else {
      assert (a + t)[1..] == a[1..] + t;
      EmptyLabelAfterDot(a[1..], t);
      var rest := Split(a[1..] + t);
      assert rest[1..] == rest[1..];
      if a[0] == '.' {
        assert Split(a + t) == [""] + rest;
        assert "" in rest;
      } else {
        assert Split(a + t) == [[a[0]] + rest[0]] + rest[1..];
      }
    }
  }

  /** The empty body is refused. */
  lemma EmptyDomainRefused()
    ensures !ValidDomain("")
  {
    assert Split("") == [""];
    assert "" in Split("");
  }

  // ---------------------------------------------------------------- health score

  function Indicator(b: bool): nat { if b then 1 else 0 }

  /** The points taken off 100: 30 for a listing, 20 each for missing SPF or
      DKIM, 15 each for missing DMARC or MX. */
  function Deductions(listed: bool, spf: bool, dkim: bool, dmarc: bool, mx: bool): (d: nat)
    ensures d <= 100
    ensures d == 0 <==> !listed && spf && dkim && dmarc && mx
  {
    30 * Indicator(listed) + 20 * Indicator(!spf) + 20 * Indicator(!dkim) + 15 * Indicator(!dmarc) + 15 * Indicator(!mx)
  }

  /** The score after the five deductions, taken one after another. */
  method HealthScore(listed: bool, spf: bool, dkim: bool, dmarc: bool, mx: bool) returns (score: int)
    ensures score == 100 - Deductions(listed, spf, dkim, dmarc, mx)
    ensures 0 <= score <= 100
  {
    score := 100;
    if listed { score := score - 30; }
    if !spf { score := score - 20; }
    if !dkim { score := score - 20; }
    if !dmarc { score := score - 15; }
    if !mx { score := score - 15; }
  }

  /** `Math.max(0, score)`. */
  function ClampAtZero(score: int): (r: nat)
    ensures r >= score && (score >= 0 ==> r == score)
  {
    if score < 0 then 0 else score
  }

  /** A domain is healthy (score at least 70) exactly when it has at most one
      problem, or its only problems are a missing DMARC and a missing MX record. */
  lemma HealthyIff(listed: bool, spf: bool, dkim: bool, dmarc: bool, mx: bool)
    ensures 100 - Deductions(listed, spf, dkim, dmarc, mx) >= 70 <==>
              Indicator(listed) + Indicator(!spf) + Indicator(!dkim) + Indicator(!dmarc) + Indicator(!mx) <= 1 ||
              (!listed && spf && dkim && !dmarc && !mx)
  {
  }

  /** The lowest score is 0, for a listed domain with no records at all: the
      clamp at zero never applies. */
  lemma LowestScore()
    ensures Deductions(true, false, false, false, false) == 100
    ensures forall l, s, k, d, m :: 100 - Deductions(l, s, k, d, m) >= 0
  {
  }

  /** Nothing present and not listed scores 30 (unhealthy); everything present
      scores 100, or 70 (still healthy) when listed. */
  lemma WorkedScores()
    ensures 100 - Deductions(false, false, false, false, false) == 30
    ensures 100 - Deductions(false, true, true, true, true) == 100
    ensures 100 - Deductions(true, true, true, true, true) == 70
  {
  }

  /** Fixing a problem never lowers the score. */
  lemma FixingNeverHurts(listed: bool, spf: bool, dkim: bool, dmarc: bool, mx: bool)
    ensures Deductions(false, spf, dkim, dmarc, mx) <= Deductions(listed, spf, dkim, dmarc, mx)
    ensures Deductions(listed, true, dkim, dmarc, mx) <= Deductions(listed, spf, dkim, dmarc, mx)
    ensures Deductions(listed, spf, true, dmarc, mx) <= Deductions(listed, spf, dkim, dmarc, mx)
    ensures Deductions(listed, spf, dkim, true, mx) <= Deductions(listed, spf, dkim, dmarc, mx)
    ensures Deductions(listed, spf, dkim, dmarc, true) <= Deductions(listed, spf, dkim, dmarc, mx)
  {
  }

  // ---------------------------------------------------------------- handler

  datatype Request = Request(httpMethod: string, domain: Option<string>, useRealData: bool)

  datatype SpamHouseEntry = SpamHouseEntry(spamHouse: string, isListed: bool, reason: Option<string>)

  datatype HealthReport = HealthReport(
    domain: string,
    healthScore: nat,
    spamHouseStatus: string,
    spfRecord: bool,
    dkimRecord: bool,
    dmarcRecord: bool,
    mxRecords: bool,
    isHealthy: bool,
    spamHouse: seq<SpamHouseEntry>,
    records: DnsRecords)

  datatype Body = Failure(error: string) | Report(data: HealthReport) | Demo(domain: string)

  datatype Response = Response(status: nat, body: Body)

  /** The domain is given and not empty. */
  predicate HasDomain(req: Request) {
    req.domain.Some? && req.domain.value != ""
  }

  /** The guard responses, in the order the handler tests them. */
  function Rejection(req: Request): (r: Option<Response>)
    ensures req.httpMethod != "POST" ==> r == Some(Response(405, Failure("Method not allowed")))
    ensures req.httpMethod == "POST" && !HasDomain(req) ==> r == Some(Response(400, Failure("Domain is required")))
    ensures req.httpMethod == "POST" && HasDomain(req) ==>
              (r.None? <==> ValidDomain(req.domain.value)) &&
              (r.Some? ==> r == Some(Response(400, Failure("Invalid domain format"))))
  {
    if req.httpMethod != "POST" then Some(Response(405, Failure("Method not allowed")))
    else if !HasDomain(req) then Some(Response(400, Failure("Domain is required")))
    else if !ValidDomain(req.domain.value) then Some(Response(400, Failure("Invalid domain format")))
    else None
  }

  /** The live-data report from a reputation summary and the DNS records. */
  method BuildReport(domain: string, rep: Reputation, dnsRecords: DnsRecords) returns (report: HealthReport)
    ensures report.domain == domain && report.records == dnsRecords
    ensures report.healthScore == 100 - Deductions(rep.isListed, dnsRecords.spf.present, dnsRecords.dkim.present,
                                                   dnsRecords.dmarc.present, dnsRecords.mx.present)
    ensures report.isHealthy <==> report.healthScore >= 70
    ensures report.spamHouseStatus == (if rep.isListed then "FLAGGED" else "CLEAN")
    ensures report.spfRecord == dnsRecords.spf.present && report.dkimRecord == dnsRecords.dkim.present
    ensures report.dmarcRecord == dnsRecords.dmarc.present && report.mxRecords == dnsRecords.mx.present
    ensures report.spamHouse == [SpamHouseEntry("SPAMHAUS", rep.spamhaus.isListed, rep.spamhaus.reason),
                                 SpamHouseEntry("SURBL", rep.surbl.isListed, rep.surbl.reason),
                                 SpamHouseEntry("URIBL", rep.uribl.isListed, rep.uribl.reason)]
  {
    var score := HealthScore(rep.isListed, dnsRecords.spf.present, dnsRecords.dkim.present,
                             dnsRecords.dmarc.present, dnsRecords.mx.present);
    report := HealthReport(
      domain, ClampAtZero(score),
      if rep.isListed then "FLAGGED" else "CLEAN",
      dnsRecords.spf.present, dnsRecords.dkim.present, dnsRecords.dmarc.present, dnsRecords.mx.present,
      score >= 70,
      [SpamHouseEntry("SPAMHAUS", rep.spamhaus.isListed, rep.spamhaus.reason),
       SpamHouseEntry("SURBL", rep.surbl.isListed, rep.surbl.reason),
       SpamHouseEntry("URIBL", rep.uribl.isListed, rep.uribl.reason)],
      dnsRecords);
  }

  /** The three legacy spam-house entries of a report, judged over the flagged checks. */
  function LegacyEntries(flagged: seq<BlacklistCheck>): seq<SpamHouseEntry> {
    var spamhaus := LegacyVerdictOf(flagged, IsSpamhausKey);
    var surbl := LegacyVerdictOf(flagged, IsSurblKey);
    var uribl := LegacyVerdictOf(flagged, IsUriblKey);
    [SpamHouseEntry("SPAMHAUS", spamhaus.isListed, spamhaus.reason),
     SpamHouseEntry("SURBL", surbl.isListed, surbl.reason),
     SpamHouseEntry("URIBL", uribl.isListed, uribl.reason)]
  }

  /** What a live report says about the domain: the flags and the record sections
      follow the DNS answers, the status and the legacy entries follow the
      reputation summary, and the score takes the deductions. */
  predicate DescribesLive(report: HealthReport, domain: string, rep: Reputation, txt: TxtZone,
                          mx: Option<seq<MxRecord>>) {
    report.domain == domain &&
    report.spamHouseStatus == (if rep.isListed then "FLAGGED" else "CLEAN") &&
    report.spamHouse == LegacyEntries(rep.flagged) &&
    report.records.spf == SpfSummaryOf(TxtAt(txt, domain)) &&
    report.records.dkim == DkimSummaryOf(TxtAt(txt, domain)) &&
    report.records.dmarc == DmarcSummaryOf(TxtAt(txt, "_dmarc." + domain)) &&
    DescribesMx(report.records.mx, mx.GetOr([])) &&
    (report.spfRecord <==> |Filter(TxtAt(txt, domain), IsSpfRecord)| > 0) &&
    (report.dkimRecord <==> |Filter(TxtAt(txt, domain), MentionsDomainKey)| > 0) &&
    (report.dmarcRecord <==> |Filter(TxtAt(txt, "_dmarc." + domain), IsDmarcRecord)| > 0) &&
    (report.mxRecords <==> mx.GetOr([]) != []) &&
    report.healthScore == 100 - Deductions(rep.isListed, report.spfRecord, report.dkimRecord,
                                           report.dmarcRecord, report.mxRecords) &&
    (report.isHealthy <==> report.healthScore >= 70)
  }

  /** The live-data branch: the reputation check and the DNS record check, then the report. */
  method LiveCheck(checker: BlacklistChecker, domain: string, now: int, dns: Resolver, txt: TxtZone,
                   mx: Option<seq<MxRecord>>) returns (report: HealthReport)
    modifies checker
    ensures DescribesLive(report, domain, Summarize(domain, CatalogChecks(domain, old(checker.entries), now, dns)),
                          txt, mx)
    ensures checker.entries == RefreshAll(old(checker.entries), domain, now, dns, |Catalog|)
  {
    var rep := checker.CheckEmailReputation(domain, now, dns);
    var dnsRecords := CheckDnsRecords(domain, txt, mx);
    report := BuildReport(domain, rep, dnsRecords);
    assert report.spamHouse == LegacyEntries(rep.flagged);
    assert report.records == dnsRecords;
  }

  /** The endpoint. A rejected request leaves the lookup cache alone; a live check
      runs the ten-zone reputation check and the DNS record check. */
  method Handle(checker: BlacklistChecker, req: Request, now: int, dns: Resolver, txt: TxtZone,
                mx: Option<seq<MxRecord>>) returns (resp: Response)
    modifies checker
    ensures Rejection(req).Some? ==> resp == Rejection(req).value && checker.entries == old(checker.entries)
    ensures Rejection(req).None? && !req.useRealData ==>
              resp == Response(200, Demo(req.domain.value)) && checker.entries == old(checker.entries)
    ensures Rejection(req).None? && req.useRealData ==>
              var domain := req.domain.value;
              resp.status == 200 && resp.body.Report? &&
              DescribesLive(resp.body.data, domain, Summarize(domain, CatalogChecks(domain, old(checker.entries), now, dns)),
                            txt, mx) &&
              checker.entries == RefreshAll(old(checker.entries), domain, now, dns, |Catalog|)
  {
    var rejection := Rejection(req);
    if rejection.Some? {
      return rejection.value;
    }
    var domain := req.domain.value;
    if !req.useRealData {
      return Response(200, Demo(domain));
    }
    var report := LiveCheck(checker, domain, now, dns, txt, mx);
    resp := Response(200, Report(report));
  }
}
