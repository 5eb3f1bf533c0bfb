/** `checkDomainWithMXToolbox` and `generateRecommendations`
    (src/lib/domain-health/mxtoolbox-api.js): the record sets the analysis reads
    from DNS, the four analyzers applied to them, and the recommendation list
    built from the finished analysis. */
module Toolbox {
  import opened Text
  import opened Dns
  import opened RecordChecks
  import opened MxChecks
  import LiveRecords

  /** The DKIM selectors the analysis tries, in order. */
  const DkimSelectors: seq<string> := ["default", "google", "k1", "selector1", "selector2"]

  /** The TXT records at `selector._domainkey.domain` for each selector, concatenated
      in selector order; a selector whose lookup fails contributes nothing. */
  function SelectorRecords(txt: TxtZone, domain: string, selectors: seq<string>): seq<TxtRecord>
    decreases |selectors|
  {
    if selectors == [] then []
    else SelectorRecords(txt, domain, selectors[..|selectors| - 1]) +
         LiveRecords.TxtAt(txt, selectors[|selectors| - 1] + "._domainkey." + domain)
  }

  /** A selector's records are part of the DKIM answer, unfiltered. */
  lemma {:induction false} SelectorRecordsContain(txt: TxtZone, domain: string, selectors: seq<string>, k: nat)
    requires k < |selectors|
    ensures forall r :: r in LiveRecords.TxtAt(txt, selectors[k] + "._domainkey." + domain) ==>
              r in SelectorRecords(txt, domain, selectors)
  {
    var n := |selectors| - 1;
    var init := SelectorRecords(txt, domain, selectors[..n]);
    var last := LiveRecords.TxtAt(txt, selectors[n] + "._domainkey." + domain);
    assert SelectorRecords(txt, domain, selectors) == init + last;
    if k < n {
      assert selectors[..n][k] == selectors[k];
      SelectorRecordsContain(txt, domain, selectors[..n], k);
      forall r | r in LiveRecords.TxtAt(txt, selectors[k] + "._domainkey." + domain) ensures r in init + last {
        assert r in init;
      }
    }
  }

  datatype DomainAnalysis = DomainAnalysis(domain: string, spf: SpfAnalysis, dkim: DkimAnalysis,
                                           dmarc: DmarcAnalysis, mx: MxAnalysis)

  /** The analysis part of `checkDomainWithMXToolbox`. SPF and DMARC read the
      filtered TXT records of the domain and of `_dmarc.domain`, DKIM reads the
      selector records unfiltered, and a failed lookup reads as no records. */
  method CheckDomainWithToolbox(domain: string, txt: TxtZone, mx: Option<seq<MxRecord>>) returns (a: DomainAnalysis)
    ensures a.domain == domain
    ensures var spf := FirstChunks(Filter(LiveRecords.TxtAt(txt, domain), LiveRecords.IsSpfRecord));
            a.spf.records == spf && a.spf.count == |spf| && (a.spf.present <==> |spf| > 0) &&
            (a.spf.hasMultiple <==> |spf| > 1) &&
            (a.spf.isValid <==> SpfValid(spf)) && a.spf.issues == SpfIssues(spf) &&
            a.spf.recommendations == SpfRecommendations(spf)
    ensures var dkim := FirstChunks(SelectorRecords(txt, domain, DkimSelectors));
            a.dkim.records == dkim && a.dkim.count == |dkim| && (a.dkim.present <==> |dkim| > 0) &&
            (a.dkim.isValid <==> DkimValid(dkim)) && a.dkim.issues == DkimIssues(dkim) &&
            a.dkim.recommendations == (if dkim == [] then [SetUpDkimRecommendation] else [])
    ensures var dmarc := FirstChunks(Filter(LiveRecords.TxtAt(txt, "_dmarc." + domain), LiveRecords.IsDmarcRecord));
            a.dmarc.records == dmarc && a.dmarc.count == |dmarc| && (a.dmarc.present <==> |dmarc| > 0) &&
            (dmarc == [] ==> a.dmarc == DmarcAnalysis(false, 0, [], "none", 100, None, None, false,
                                                      [NoDmarcIssue], [SetUpDmarcRecommendation])) &&
            (dmarc != [] ==> var st := DmarcFold(AllTags(dmarc));
                             a.dmarc.policy == st.policy && a.dmarc.percentage == st.percentage &&
                             a.dmarc.rua == st.rua && a.dmarc.ruf == st.ruf &&
                             (a.dmarc.isValid <==> st.isValid) && a.dmarc.issues == st.issues &&
                             a.dmarc.recommendations == [])
    ensures var records := mx.GetOr([]);
            (a.mx.present <==> |records| > 0) && a.mx.count == |records| && !a.mx.isValid &&
            a.mx.issues == MxIssues(records) &&
            multiset(a.mx.records) == multiset(records) && SortedByPriority(a.mx.records) &&
            (records == [] ==> a.mx.provider == "Unknown" && a.mx.providerName == "Unknown Provider" &&
                               a.mx.confidence == 0 && a.mx.recommendations == [AddMxRecommendation]) &&
            (records != [] ==> var b := IdentifyAfter(Providers.ToolboxProviders, records);
                               a.mx.provider == b.provider && a.mx.providerName == b.name &&
                               a.mx.confidence == b.confidence && a.mx.recommendations == [])
  {
    var spf := FirstChunks(Filter(LiveRecords.TxtAt(txt, domain), LiveRecords.IsSpfRecord));
    var dkim := FirstChunks(SelectorRecords(txt, domain, DkimSelectors));
    var dmarc := FirstChunks(Filter(LiveRecords.TxtAt(txt, "_dmarc." + domain), LiveRecords.IsDmarcRecord));
    var spfAnalysis := AnalyzeSpf(spf);
    var dkimAnalysis := AnalyzeDkim(dkim);
    var dmarcAnalysis := AnalyzeDmarc(dmarc);
    var mxAnalysis := AnalyzeMx(mx.GetOr([]));
    a := DomainAnalysis(domain, spfAnalysis, dkimAnalysis, dmarcAnalysis, mxAnalysis);
  }

  // ---------------------------------------------------------------- recommendations

  datatype Level = Critical | High | Medium | Low

  /** The recommendation objects the generator pushes. */
  datatype Item =
    | SetUpSpfItem | SetUpDkimItem | SetUpDmarcItem | StrengthenDmarcItem | AddMxItem
    | SpfIssueItem(spfIssue: Issue)
    | MxIssueItem(mxIssue: Issue)

  function LevelOf(i: Item): Level {
    match i
    case SetUpSpfItem => High
    case SetUpDkimItem => High
    case SetUpDmarcItem => High
    case StrengthenDmarcItem => Medium
    case AddMxItem => Critical
    case SpfIssueItem(_) => Medium
    case MxIssueItem(_) => Low
  }

  /** The text fields of a recommendation object. */
  datatype ItemText = ItemText(category: string, title: string, description: string, action: string, impact: string)

  function TextOf(i: Item): ItemText {
    match i
    case SetUpSpfItem =>
      ItemText("SPF", "Set up SPF record", "Add an SPF record to prevent email spoofing",
               "Add TXT record: v=spf1 include:_spf.google.com ~all",
               "Prevents email spoofing and improves deliverability")
    case SetUpDkimItem =>
      ItemText("DKIM", "Set up DKIM authentication", "Configure DKIM with your email provider",
               "Contact your email provider to enable DKIM",
               "Significantly improves email deliverability and security")
    case SetUpDmarcItem =>
      ItemText("DMARC", "Set up DMARC policy", "Create a DMARC record to protect against spoofing",
               "Add TXT record to _dmarc subdomain: v=DMARC1; p=quarantine; rua=mailto:dmarc@yourdomain.com",
               "Protects your domain from email spoofing")
    case StrengthenDmarcItem =>
      ItemText("DMARC", "Strengthen DMARC policy",
               "Change DMARC policy from \"none\" to \"quarantine\" or \"reject\"",
               "Update DMARC record: v=DMARC1; p=quarantine; rua=mailto:dmarc@yourdomain.com",
               "Better protection against email spoofing")
    case AddMxItem =>
      ItemText("MX", "Add MX records", "Configure MX records for email delivery",
               "Add MX records pointing to your email server", "Enables email delivery to your domain")
    case SpfIssueItem(issue) =>
      ItemText("SPF", "Fix SPF record issue", IssueText(issue), "Review and update your SPF record",
               "Improves email authentication")
    case MxIssueItem(issue) =>
      ItemText("MX", "Improve MX configuration", IssueText(issue), "Review your MX record configuration",
               "Improves email reliability")
  }

  function SpfItemOf(issue: Issue): Item { SpfIssueItem(issue) }

  function MxItemOf(issue: Issue): Item { MxIssueItem(issue) }

  /** The items for a list of issues, one per issue, in order. */
  function IssueItems(issues: seq<Issue>, item: Issue -> Item): (r: seq<Item>)
    ensures |r| == |issues| && forall i :: 0 <= i < |issues| ==> r[i] == item(issues[i])
  {
    seq(|issues|, i requires 0 <= i < |issues| => item(issues[i]))
  }

  /** The must-fix list: a high item per missing SPF, DKIM and DMARC record set,
      then a critical item for missing MX records. */
  function PriorityItems(a: DomainAnalysis): seq<Item> {
    (if !a.spf.present then [SetUpSpfItem] else []) +
    (if !a.dkim.present then [SetUpDkimItem] else []) +
    (if !a.dmarc.present then [SetUpDmarcItem] else []) +
    (if !a.mx.present then [AddMxItem] else [])
  }

  /** The advisory list: an item per SPF issue, one for a DMARC policy `none`, and
      an item per MX issue; DKIM issues add nothing. */
  function AdvisoryItems(a: DomainAnalysis): seq<Item> {
    (if a.spf.present then IssueItems(a.spf.issues, SpfItemOf) else []) +
    (if a.dmarc.present && a.dmarc.policy == "none" then [StrengthenDmarcItem] else []) +
    (if a.mx.present then IssueItems(a.mx.issues, MxItemOf) else [])
  }

  /** `items.filter(r => r.priority === level).length` */
  function CountLevel(items: seq<Item>, level: Level): nat
    decreases |items|
  {
    if items == [] then 0
    else (if LevelOf(items[0]) == level then 1 else 0) + CountLevel(items[1..], level)
  }

  datatype Recommendations = Recommendations(priority: seq<Item>, recommendations: seq<Item>,
                                             totalIssues: nat, criticalIssues: nat, highPriorityIssues: nat)

  /** Push one item per issue onto `items`. */
  method PushIssueItems(items: seq<Item>, issues: seq<Issue>, item: Issue -> Item) returns (r: seq<Item>)
    ensures r == items + IssueItems(issues, item)
  {
    r := items;
    var i := 0;
    while i < |issues|
      invariant 0 <= i <= |issues|
      invariant r == items + IssueItems(issues[..i], item)
    {
      r := r + [item(issues[i])];
      i := i + 1;
    }
    assert issues[..i] == issues;
  }

  /** The pushes onto `priority` in `generateRecommendations`. */
  method PushPriority(a: DomainAnalysis) returns (priority: seq<Item>)
    ensures priority == PriorityItems(a)
  {
    priority := [];
    if !a.spf.present {
      priority := priority + [SetUpSpfItem];
    }
    if !a.dkim.present {
      priority := priority + [SetUpDkimItem];
    }
    if !a.dmarc.present {
      priority := priority + [SetUpDmarcItem];
    }
    if !a.mx.present {
      priority := priority + [AddMxItem];
    }
  }

  /** The pushes onto `recommendations` in `generateRecommendations`. */
  method PushAdvisory(a: DomainAnalysis) returns (recommendations: seq<Item>)
    ensures recommendations == AdvisoryItems(a)
  {
    recommendations := [];
    if a.spf.present && |a.spf.issues| > 0 {
      recommendations := PushIssueItems(recommendations, a.spf.issues, SpfItemOf);
    }
    if a.dmarc.present && a.dmarc.policy == "none" {
      recommendations := recommendations + [StrengthenDmarcItem];
    }
    if a.mx.present && |a.mx.issues| > 0 {
      recommendations := PushIssueItems(recommendations, a.mx.issues, MxItemOf);
    }
  }

  /** `generateRecommendations`: the two lists never feed each other, so they are
      built one after the other. */
  method GenerateRecommendations(a: DomainAnalysis) returns (r: Recommendations)
    ensures r.priority == PriorityItems(a) && r.recommendations == AdvisoryItems(a)
    ensures r.totalIssues == |r.priority| + |r.recommendations|
    ensures r.criticalIssues == CountLevel(r.priority, Critical)
    ensures r.highPriorityIssues == CountLevel(r.priority, High)
  {
    var priority := PushPriority(a);
    var recommendations := PushAdvisory(a);
    r := Recommendations(priority, recommendations, |priority| + |recommendations|,
                         CountLevel(priority, Critical), CountLevel(priority, High));
  }

  function Indicator(b: bool): nat { if b then 1 else 0 }

  /** One critical item exactly when MX records are missing. */
  lemma CriticalCount(a: DomainAnalysis)
    ensures CountLevel(PriorityItems(a), Critical) == Indicator(!a.mx.present)
  {
    PriorityLevels(a, Critical);
  }

  /** One high item per missing SPF, DKIM or DMARC record set. */
  lemma HighCount(a: DomainAnalysis)
    ensures CountLevel(PriorityItems(a), High) ==
              Indicator(!a.spf.present) + Indicator(!a.dkim.present) + Indicator(!a.dmarc.present)
  {
    PriorityLevels(a, High);
  }

  lemma PriorityLevels(a: DomainAnalysis, level: Level)
    ensures CountLevel(PriorityItems(a), level) ==
              Indicator(!a.spf.present && level == High) + Indicator(!a.dkim.present && level == High) +
              Indicator(!a.dmarc.present && level == High) + Indicator(!a.mx.present && level == Critical)
  {
    var s := if !a.spf.present then [SetUpSpfItem] else [];
    var k := if !a.dkim.present then [SetUpDkimItem] else [];
    var d := if !a.dmarc.present then [SetUpDmarcItem] else [];
    var m := if !a.mx.present then [AddMxItem] else [];
    assert PriorityItems(a) == s + k + d + m;
    calc {
      CountLevel(s + k + d + m, level);
      { CountLevelAppend(s + k + d, m, level); CountLevelAppend(s + k, d, level); CountLevelAppend(s, k, level); }
      CountLevel(s, level) + CountLevel(k, level) + CountLevel(d, level) + CountLevel(m, level);
      { OptionalItemCount(!a.spf.present, SetUpSpfItem, level);
        OptionalItemCount(!a.dkim.present, SetUpDkimItem, level);
        OptionalItemCount(!a.dmarc.present, SetUpDmarcItem, level);
        OptionalItemCount(!a.mx.present, AddMxItem, level); }
      Indicator(!a.spf.present && level == High) + Indicator(!a.dkim.present && level == High) +
      Indicator(!a.dmarc.present && level == High) + Indicator(!a.mx.present && level == Critical);
    }
  }

  lemma OptionalItemCount(b: bool, x: Item, level: Level)
    ensures CountLevel(if b then [x] else [], level) == Indicator(b && LevelOf(x) == level)
  {
    if b {
      assert [x][1..] == [];
    }
  }

  /** Counting distributes over concatenation. */
  lemma {:induction false} CountLevelAppend(s: seq<Item>, t: seq<Item>, level: Level)
    ensures CountLevel(s + t, level) == CountLevel(s, level) + CountLevel(t, level)
  {
    if s == [] {
      assert s + t == t;
    } else {
      assert (s + t)[0] == s[0];
      assert (s + t)[1..] == s[1..] + t;
      CountLevelAppend(s[1..], t, level);
    }
  }

  /** Every advisory item is medium or low: each SPF issue gives a medium item
      carrying its message, a DMARC policy `none` one more, each MX issue a low one. */
  lemma AdvisoryCount(a: DomainAnalysis)
    ensures |AdvisoryItems(a)| ==
              (if a.spf.present then |a.spf.issues| else 0) +
              Indicator(a.dmarc.present && a.dmarc.policy == "none") +
              (if a.mx.present then |a.mx.issues| else 0)
    ensures forall i :: i in AdvisoryItems(a) ==> LevelOf(i) == Medium || LevelOf(i) == Low
  {
  }

  /** DKIM issues never reach the recommendations. */
  lemma DkimIssuesAreIgnored(a: DomainAnalysis, issues: seq<Issue>)
    ensures PriorityItems(a.(dkim := a.dkim.(issues := issues))) == PriorityItems(a)
    ensures AdvisoryItems(a.(dkim := a.dkim.(issues := issues))) == AdvisoryItems(a)
  {
  }
}
