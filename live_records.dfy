/** DNS-record interpretation of the key-less path (`checkDNSRecordsFree` in
    src/lib/domain-health/free-apis.js): the SPF, DKIM and DMARC record filters,
    the DMARC tag extraction (tags as in section 6.3 of RFC 7489, found by
    unanchored search), and the MX provider identification `analyzeMXRecords`. */
module LiveRecords {
  import opened Text
  import opened Dns
  import opened Providers

  /** `record[0].startsWith('v=spf1')` */
  predicate IsSpfRecord(r: TxtRecord) { StartsWith(r[0], "v=spf1") }

  /** `record[0].toLowerCase().includes('domainkey')`, the DKIM test of this path,
      applied to the domain's own TXT records. */
  predicate MentionsDomainKey(r: TxtRecord) { Contains(ToLower(r[0]), "domainkey") }

  /** `record[0].startsWith('v=DMARC1')` */
  predicate IsDmarcRecord(r: TxtRecord) { StartsWith(r[0], "v=DMARC1") }

  /** The policy fields `parseDMARCPolicy` extracts; `percentage` and `rua` are
      null when there is no DMARC record at all. */
  datatype DmarcPolicy = DmarcPolicy(policy: string, percentage: Option<nat>, rua: Option<string>)

  const NoDmarcPolicy := DmarcPolicy("none", None, None)

  /** `record.match(/pct=(\d+)/)` turned into a number by `parseInt`. */
  function PercentTag(record: string): (r: Option<nat>)
    ensures r.Some? <==> exists i :: CaptureStartsAt(record, "pct=", IsDigit, i)
    ensures r.Some? ==> Capture(record, "pct=", IsDigit).Some? &&
                        r.value == Positional(Capture(record, "pct=", IsDigit).value) &&
                        r.value < Pow10(|Capture(record, "pct=", IsDigit).value|)
  {
    match Capture(record, "pct=", IsDigit)
    case None => None
    case Some(ds) =>
      DecimalValueIsPositional(ds);
      Some(DecimalValue(ds))
  }

  /** `parseDMARCPolicy`: the first `p=` value lower-cased (default `none`), the
      `pct=` number (default 100) and the first `rua=` value. An empty record
      (falsy in the source) gives the no-record defaults. */
  function ParseDmarcPolicy(record: string): (p: DmarcPolicy)
    ensures record == "" ==> p == NoDmarcPolicy
    ensures record != "" ==> p.percentage.Some?
    ensures record != "" && Capture(record, "p=", NotSemicolon).None? ==> p.policy == "none"
    ensures record != "" && Capture(record, "p=", NotSemicolon).Some? ==>
              p.policy == ToLower(Capture(record, "p=", NotSemicolon).value) && |p.policy| > 0
    ensures record != "" && PercentTag(record).None? ==> p.percentage == Some(100)
    ensures record != "" && PercentTag(record).Some? ==> p.percentage == PercentTag(record)
    ensures p.rua.Some? ==> p.rua == Capture(record, "rua=", NotSemicolon)
    ensures record != "" ==> p.rua == Capture(record, "rua=", NotSemicolon)
    ensures forall c :: c in p.policy ==> c != ';'
  {
    if record == "" then NoDmarcPolicy
    else
      var policy := Capture(record, "p=", NotSemicolon);
      var lowered := if policy.Some? then ToLower(policy.value) else "none";
      assert forall c :: c in lowered ==> c != ';' by {
        if policy.Some? {
          forall c | c in lowered ensures c != ';' {
            var i :| 0 <= i < |lowered| && lowered[i] == c;
            assert policy.value[i] in policy.value;
          }
        }
      }
      DmarcPolicy(lowered, Some(PercentTag(record).GetOr(100)), Capture(record, "rua=", NotSemicolon))
  }

  /** With no `p` before it, a `pct=` tag followed by digits is read as the
      base-10 number those digits spell. */
  lemma PercentTagReads(pre: string, ds: string, rest: string)
    requires forall c :: c in pre ==> c != 'p'
    requires |ds| > 0 && forall c :: c in ds ==> IsDigit(c)
    requires rest == [] || !IsDigit(rest[0])
    ensures PercentTag(pre + ("pct=" + (ds + rest))) == Some(Positional(ds))
  {
    var tail := ds + rest;
    assert ds[0] in ds && tail[0] == ds[0];
    CaptureAfter(pre, "pct=", tail, IsDigit);
    TakeWhileStops(ds, rest, IsDigit);
    DecimalValueIsPositional(ds);
  }

  /** A worked record: `pct=50` gives the percentage 50. */
  lemma PercentOfPartialPolicy()
    ensures ParseDmarcPolicy("v=DMARC1; pct=50; p=reject").percentage == Some(50)
  {
    var record := "v=DMARC1; pct=50; p=reject";
    assert record == "v=DMARC1; " + ("pct=" + ("50" + "; p=reject"));
    PercentTagReads("v=DMARC1; ", "50", "; p=reject");
    FiftyIsPositional();
    assert PercentTag(record) == Some(50);
  }

  lemma FiftyIsPositional()
    ensures Positional("50") == 50
  {
    assert "50"[1..] == "0" && "0"[1..] == [];
  }

  /** The `p=` search is not anchored at a tag boundary: in a record whose first
      `p` letter belongs to a subdomain-policy tag `sp=v`, the subdomain policy `v`
      is read as the policy, whatever `p=` tag follows. */
  lemma SubdomainPolicyIsReadFirst(head: string, v: string, tail: string)
    requires forall c :: c in head ==> c != 'p'
    requires |v| > 0 && forall c :: c in v ==> c != ';'
    requires tail == [] || tail[0] == ';'
    ensures ParseDmarcPolicy(head + "sp=" + v + tail).policy == ToLower(v)
  {
    var pre := head + "s";
    assert forall c :: c in pre ==> c != 'p' by {
      forall c | c in pre ensures c != 'p' {
        if c != 's' {
          var k :| 0 <= k < |pre| && pre[k] == c;
          assert head[k] in head;
        }
      }
    }
    assert head + "sp=" + v + tail == pre + ("p=" + (v + tail));
    assert v[0] in v;
    FirstPolicyTag(pre, v + tail);
    TakeWhileStops(v, tail, NotSemicolon);
  }

  lemma NoTagInPlainPrefix(pre: string, rest: string)
    requires forall c :: c in pre ==> c != 'p'
    ensures forall j :: 0 <= j < |pre| ==> !CaptureStartsAt(pre + rest, "p=", NotSemicolon, j)
  {
    forall j | 0 <= j < |pre| ensures !OccursAt(pre + rest, "p=", j) {
      assert (pre + rest)[j] == pre[j] && pre[j] in pre;
    }
  }

  /** With no `p` before it, the first `p=` followed by a value is the one read. */
  lemma FirstPolicyTag(pre: string, rest: string)
    requires forall c :: c in pre ==> c != 'p'
    requires |rest| > 0 && rest[0] != ';'
    ensures Capture(pre + ("p=" + rest), "p=", NotSemicolon) == Some(TakeWhile(rest, NotSemicolon))
  {
    NoTagInPlainPrefix(pre, "p=" + rest);
    PolicyTagAt(pre, rest);
    CaptureReads(pre + ("p=" + rest), |pre|, rest);
  }

  lemma PolicyTagAt(pre: string, rest: string)
    requires |rest| > 0 && rest[0] != ';'
    ensures CaptureStartsAt(pre + ("p=" + rest), "p=", NotSemicolon, |pre|)
    ensures (pre + ("p=" + rest))[|pre| + 2..] == rest
  {
    var tagged := "p=" + rest;
    var s := pre + tagged;
    var i := |pre|;
    assert s[i..] == tagged;
    assert s[i..i + 2] == tagged[..2] == "p=";
    assert s[i + 2..] == tagged[2..] == rest;
  }

  lemma CaptureReads(s: string, i: nat, rest: string)
    requires CaptureStartsAt(s, "p=", NotSemicolon, i)
    requires s[i + 2..] == rest
    requires forall j :: 0 <= j < i ==> !CaptureStartsAt(s, "p=", NotSemicolon, j)
    ensures Capture(s, "p=", NotSemicolon) == Some(TakeWhile(rest, NotSemicolon))
  {
    CaptureAt(s, "p=", NotSemicolon, i);
  }

  /** One `details` entry of `analyzeMXRecords`. */
  datatype MxDetail = MxDetail(priority: nat, exchange: string, provider: string, confidence: nat)

  /** `bestMatch` of `analyzeMXRecords`. */
  datatype BestMatch = BestMatch(provider: string, name: string, confidence: nat)

  const UnknownMatch := BestMatch("Unknown", "Unknown Provider", 0)

  /** The best match a provider entry stands for. */
  function MatchFor(p: Provider): BestMatch {
    BestMatch(p.key, p.name, p.confidence)
  }

  /** Every entry of a provider table has a positive confidence, so a match always
      outranks the Unknown start value. */
  predicate PositiveTable(table: seq<Provider>) {
    forall k :: 0 <= k < |table| ==> table[k].confidence > 0
  }

  lemma LiveProvidersPositive()
    ensures PositiveTable(LiveProviders)
  {
  }

  /** Index of the first table entry matching the lower-cased exchange. */
  function MatchOf(table: seq<Provider>, r: MxRecord): Option<nat> {
    FirstProvider(table, ToLower(r.exchange))
  }

  /** The detail entry for one MX record: the first matching provider in table
      order, or `Unknown` with confidence 0. */
  function DetailFor(table: seq<Provider>, r: MxRecord): (d: MxDetail)
    requires PositiveTable(table)
    ensures d.priority == r.priority && d.exchange == r.exchange
    ensures MatchOf(table, r).None? <==> d.confidence == 0
    ensures MatchOf(table, r).None? ==> d.provider == "Unknown"
    ensures MatchOf(table, r).Some? ==> d.provider == table[MatchOf(table, r).value].name &&
                                        d.confidence == table[MatchOf(table, r).value].confidence
  {
    match MatchOf(table, r)
    case Some(k) => MxDetail(r.priority, r.exchange, table[k].name, table[k].confidence)
    case None => MxDetail(r.priority, r.exchange, "Unknown", 0)
  }

  /** Record `i` is where `b` was found: `b` is its matching provider, and every
      earlier record matched with a strictly lower confidence. */
  predicate WinsAt(table: seq<Provider>, mx: seq<MxRecord>, i: nat, b: BestMatch)
    requires PositiveTable(table)
    requires i < |mx|
  {
    MatchOf(table, mx[i]).Some? && b == MatchFor(table[MatchOf(table, mx[i]).value]) &&
    forall j :: 0 <= j < i ==> DetailFor(table, mx[j]).confidence < b.confidence
  }

  /** `bestMatch` after the records of `mx`, in order: the start value Unknown,
      replaced only by a record whose match has a strictly higher confidence. */
  function BestAfter(table: seq<Provider>, mx: seq<MxRecord>): BestMatch
    requires PositiveTable(table)
    decreases |mx|
  {
    if mx == [] then UnknownMatch
    else
      var b := BestAfter(table, mx[..|mx| - 1]);
      var d := DetailFor(table, mx[|mx| - 1]);
      if d.confidence > b.confidence then MatchFor(table[MatchOf(table, mx[|mx| - 1]).value])
      else b
  }

  /** One more record: the best match moves to its provider only on a strictly
      higher confidence. */
  lemma BestAfterStep(table: seq<Provider>, mx: seq<MxRecord>, i: nat)
    requires PositiveTable(table) && i < |mx|
    ensures BestAfter(table, mx[..i + 1]) ==
              if DetailFor(table, mx[i]).confidence > BestAfter(table, mx[..i]).confidence
              then MatchFor(table[MatchOf(table, mx[i]).value]) else BestAfter(table, mx[..i])
  {
    assert mx[..i + 1][..i] == mx[..i];
  }

  /** The best match has the highest confidence of any record. */
  lemma {:induction false} BestAfterIsMaximal(table: seq<Provider>, mx: seq<MxRecord>)
    requires PositiveTable(table)
    ensures forall i :: 0 <= i < |mx| ==> DetailFor(table, mx[i]).confidence <= BestAfter(table, mx).confidence
  {
    if mx != [] {
      var init := mx[..|mx| - 1];
      BestAfterIsMaximal(table, init);
      assert forall i :: 0 <= i < |init| ==> mx[i] == init[i];
    }
  }

  /** With no matching record the best match stays Unknown; with one it is a
      table entry found at the earliest record reaching the maximum. */
  lemma {:induction false} BestAfterIsFound(table: seq<Provider>, mx: seq<MxRecord>)
    requires PositiveTable(table)
    ensures BestAfter(table, mx).confidence == 0 ==> BestAfter(table, mx) == UnknownMatch
    ensures BestAfter(table, mx).confidence > 0 ==> exists i :: 0 <= i < |mx| && WinsAt(table, mx, i, BestAfter(table, mx))
  {
    if mx != [] {
      var init := mx[..|mx| - 1];
      var b := BestAfter(table, init);
      BestAfterIsFound(table, init);
      assert forall i :: 0 <= i < |init| ==> mx[i] == init[i];
      var d := DetailFor(table, mx[|mx| - 1]);
      if d.confidence > b.confidence {
        BestAfterIsMaximal(table, init);
        assert WinsAt(table, mx, |mx| - 1, BestAfter(table, mx));
      } else if b.confidence > 0 {
        var i :| 0 <= i < |init| && WinsAt(table, init, i, b);
        assert WinsAt(table, mx, i, b);
      }
    }
  }

  /** The provider part of `analyzeMXRecords`; `name` is absent (undefined in the
      source) when there are no MX records at all. */
  datatype MxAnalysis = MxAnalysis(provider: string, name: Option<string>, confidence: nat, details: seq<MxDetail>)

  /** One record of `analyzeMXRecords`: the provider search for its exchange, its
      detail entry, and the best match moved on past it. */
  method AnalyzeRecord(table: seq<Provider>, mx: seq<MxRecord>, i: nat, best: BestMatch)
    returns (next: BestMatch, d: MxDetail)
    requires PositiveTable(table) && i < |mx| && best == BestAfter(table, mx[..i])
    ensures next == BestAfter(table, mx[..i + 1]) && d == DetailFor(table, mx[i])
  {
    var record := mx[i];
    var found := FindProvider(table, ToLower(record.exchange));
    BestAfterStep(table, mx, i);
    next := best;
    if found.Some? {
      var p := table[found.value];
      if p.confidence > best.confidence {
        next := MatchFor(p);
      }
      d := MxDetail(record.priority, record.exchange, p.name, p.confidence);
    } else {
      d := MxDetail(record.priority, record.exchange, "Unknown", 0);
    }
  }

  /** `analyzeMXRecords` over the provider table `table`: one detail per MX record,
      in order, and the best match. */
  method AnalyzeMxRecords(table: seq<Provider>, mx: seq<MxRecord>) returns (a: MxAnalysis)
    requires PositiveTable(table)
    ensures |mx| == 0 ==> a == MxAnalysis("Unknown", None, 0, [])
    ensures |a.details| == |mx| && forall i :: 0 <= i < |mx| ==> a.details[i] == DetailFor(table, mx[i])
    ensures |mx| > 0 ==> a.provider == BestAfter(table, mx).provider && a.name == Some(BestAfter(table, mx).name) &&
                         a.confidence == BestAfter(table, mx).confidence
  {
    if |mx| == 0 {
      return MxAnalysis("Unknown", None, 0, []);
    }
    var best := UnknownMatch;
    var details: seq<MxDetail> := [];
    var i := 0;
    while i < |mx|
      invariant 0 <= i <= |mx|
      invariant best == BestAfter(table, mx[..i])
      invariant |details| == i && forall j :: 0 <= j < i ==> details[j] == DetailFor(table, mx[j])
    {
      var d;
      best, d := AnalyzeRecord(table, mx, i, best);
      details := details + [d];
      i := i + 1;
    }
    assert mx[..i] == mx;
    a := MxAnalysis(best.provider, Some(best.name), best.confidence, details);
  }

  /** `spf` of the returned record summary. */
  datatype SpfSummary = SpfSummary(present: bool, count: nat, records: seq<string>,
                                   hasMultiple: bool, warning: Option<string>)

  datatype DkimSummary = DkimSummary(present: bool, count: nat, records: seq<string>, warning: Option<string>)

  datatype DmarcSummary = DmarcSummary(present: bool, count: nat, records: seq<string>, policy: string,
                                       percentage: Option<nat>, rua: Option<string>, warning: Option<string>)

  datatype MxSummary = MxSummary(present: bool, count: nat, records: seq<MxRecord>, provider: string,
                                 providerName: Option<string>, confidence: nat, details: seq<MxDetail>)

  datatype DnsRecords = DnsRecords(spf: SpfSummary, dkim: DkimSummary, dmarc: DmarcSummary, mx: MxSummary)

  const MultipleSpfWarning := "Multiple SPF records detected - this is not recommended and may cause issues"
  const NoDkimWarning := "No DKIM records found - consider setting up DKIM authentication"
  const NoDmarcWarning := "No DMARC record found - consider setting up DMARC policy"
  const WeakDmarcWarning := "DMARC policy is set to \"none\" - consider using \"quarantine\" or \"reject\" for better protection"

  /** The TXT records of `name`, with a failed lookup read as none (`.catch(() => [])`). */
  function TxtAt(txt: TxtZone, name: string): seq<TxtRecord> {
    txt(name).GetOr([])
  }

  /** The first strings of records that all begin with `prefix` begin with it too. */
  lemma FirstChunksKeepPrefix(rs: seq<TxtRecord>, prefix: string)
    requires forall r :: r in rs ==> StartsWith(r[0], prefix)
    ensures forall s :: s in FirstChunks(rs) ==> StartsWith(s, prefix)
  {
    forall s | s in FirstChunks(rs) ensures StartsWith(s, prefix) {
      var i :| 0 <= i < |rs| && FirstChunks(rs)[i] == s;
      assert rs[i] in rs;
    }
  }

  /** The SPF summary of the domain's TXT answer: one entry per record that starts
      with `v=spf1`, and the multiple-record warning for more than one. */
  function SpfSummaryOf(answer: seq<TxtRecord>): (r: SpfSummary)
    ensures var spf := Filter(answer, IsSpfRecord);
            r.count == |spf| && r.records == FirstChunks(spf)
    ensures r.present <==> r.count > 0
    ensures r.hasMultiple <==> r.count > 1
    ensures r.warning.Some? <==> r.count > 1
    ensures forall s :: s in r.records ==> StartsWith(s, "v=spf1")
  {
    var spf := Filter(answer, IsSpfRecord);
    FilterMembers(answer, IsSpfRecord);
    FirstChunksKeepPrefix(spf, "v=spf1");
    SpfSummary(|spf| > 0, |spf|, FirstChunks(spf), |spf| > 1, if |spf| > 1 then Some(MultipleSpfWarning) else None)
  }

  /** The DKIM summary of the domain's TXT answer, with the warning when none mentions a domain key. */
  function DkimSummaryOf(answer: seq<TxtRecord>): (r: DkimSummary)
    ensures var dkim := Filter(answer, MentionsDomainKey);
            r.count == |dkim| && r.records == FirstChunks(dkim)
    ensures r.present <==> r.count > 0
    ensures r.warning.Some? <==> !r.present
  {
    var dkim := Filter(answer, MentionsDomainKey);
    DkimSummary(|dkim| > 0, |dkim|, FirstChunks(dkim), if |dkim| == 0 then Some(NoDkimWarning) else None)
  }

  /** The DMARC summary of the `_dmarc` TXT answer: the policy of the first DMARC
      record, and a warning when there is none or its policy is `none`. */
  function DmarcSummaryOf(answer: seq<TxtRecord>): (r: DmarcSummary)
    ensures var dmarc := Filter(answer, IsDmarcRecord);
            r.count == |dmarc| && r.records == FirstChunks(dmarc)
    ensures r.present <==> r.count > 0
    ensures forall s :: s in r.records ==> StartsWith(s, "v=DMARC1")
    ensures !r.present ==> r.policy == "none" && r.percentage.None? && r.rua.None?
    ensures r.present ==> DmarcPolicy(r.policy, r.percentage, r.rua) == ParseDmarcPolicy(r.records[0])
    ensures r.warning == (if !r.present then Some(NoDmarcWarning)
                          else if r.policy == "none" then Some(WeakDmarcWarning) else None)
  {
    var dmarc := Filter(answer, IsDmarcRecord);
    FilterMembers(answer, IsDmarcRecord);
    FirstChunksKeepPrefix(dmarc, "v=DMARC1");
    var policy := if |dmarc| > 0 then ParseDmarcPolicy(dmarc[0][0]) else NoDmarcPolicy;
    DmarcSummary(|dmarc| > 0, |dmarc|, FirstChunks(dmarc), policy.policy, policy.percentage, policy.rua,
                 if |dmarc| == 0 then Some(NoDmarcWarning)
                 else if policy.policy == "none" then Some(WeakDmarcWarning) else None)
  }

  /** The detail entry of one MX record over the live provider table. */
  function LiveDetail(r: MxRecord): MxDetail {
    LiveProvidersPositive();
    DetailFor(LiveProviders, r)
  }

  /** The best match of the MX records over the live provider table. */
  function LiveBest(mx: seq<MxRecord>): BestMatch {
    LiveProvidersPositive();
    BestAfter(LiveProviders, mx)
  }

  /** What the MX section says about an MX answer: it keeps the answer, gives one
      detail per record, and names the best match over the live table, or
      Unknown with confidence 0 and no provider name when there is no record. */
  predicate DescribesMx(m: MxSummary, answer: seq<MxRecord>) {
    m.records == answer &&
    (m.present <==> m.count > 0) &&
    m.count == |m.records| &&
    |m.details| == m.count &&
    (forall i :: 0 <= i < |m.details| ==> m.details[i] == LiveDetail(m.records[i])) &&
    (m.present ==> m.provider == LiveBest(m.records).provider &&
                   m.providerName == Some(LiveBest(m.records).name) &&
                   m.confidence == LiveBest(m.records).confidence) &&
    (!m.present ==> m.provider == "Unknown" && m.confidence == 0 && m.providerName.None?)
  }

  /** `checkDNSRecordsFree`: the SPF and DKIM summaries of the domain's TXT records,
      the DMARC summary of `_dmarc.<domain>`, and the MX analysis over the live table. */
  method CheckDnsRecords(domain: string, txt: TxtZone, mx: Option<seq<MxRecord>>) returns (r: DnsRecords)
    ensures r.spf == SpfSummaryOf(TxtAt(txt, domain))
    ensures r.dkim == DkimSummaryOf(TxtAt(txt, domain))
    ensures r.dmarc == DmarcSummaryOf(TxtAt(txt, "_dmarc." + domain))
    ensures DescribesMx(r.mx, mx.GetOr([]))
  {
    var mxs := mx.GetOr([]);
    LiveProvidersPositive();
    var analysis := AnalyzeMxRecords(LiveProviders, mxs);
    r := DnsRecords(
      SpfSummaryOf(TxtAt(txt, domain)),
      DkimSummaryOf(TxtAt(txt, domain)),
      DmarcSummaryOf(TxtAt(txt, "_dmarc." + domain)),
      MxSummary(|mxs| > 0, |mxs|, mxs, analysis.provider, analysis.name, analysis.confidence, analysis.details));
  }
}
