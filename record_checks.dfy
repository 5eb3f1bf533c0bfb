/** The SPF, DKIM and DMARC analyzers of `checkDomainWithMXToolbox`
    (src/lib/domain-health/mxtoolbox-api.js). Each analyzer walks the first
    character-strings of the records in order, pushing issues and raising
    `isValid` as it goes; each is proved against a specification function over
    the record list, and the properties the analyzers promise are lemmas about
    those functions. */
module RecordChecks {
  import opened Text
  import LiveRecords

  /** The issues the analyzers report; `IssueText` gives the message the source
      pushes for each. */
  datatype Issue =
    | PlusAllIssue | NeutralIssue | MultipleSpfIssue | NoSpfIssue
    | ShortKeyIssue | NoDkimIssue
    | WeakPolicyIssue | NoRuaIssue | NoDmarcIssue
    | SingleMxIssue | PriorityZeroMxIssue | NoMxIssue

  function IssueText(i: Issue): string {
    match i
    case PlusAllIssue => "SPF record uses +all (allow all) - consider using ~all or -all"
    case NeutralIssue => "SPF record uses ?all (neutral) - consider using ~all or -all"
    case MultipleSpfIssue => "Multiple SPF records detected - only one SPF record is allowed"
    case NoSpfIssue => "No SPF record found"
    case ShortKeyIssue => "DKIM key is too short (less than 1024 bits)"
    case NoDkimIssue => "No DKIM records found"
    case WeakPolicyIssue => "DMARC policy is set to \"none\" - consider using \"quarantine\" or \"reject\""
    case NoRuaIssue => "No DMARC aggregate reporting address (rua) specified"
    case NoDmarcIssue => "No DMARC record found"
    case SingleMxIssue => "Only one MX record found - consider adding backup MX records"
    case PriorityZeroMxIssue => "MX record with priority 0 found - this is unusual"
    case NoMxIssue => "No MX records found - email delivery will fail"
  }

  /** The recommendations the analyzers attach, with their messages. */
  datatype Advice = AddQualifierRecommendation | AddSpfRecommendation | SetUpDkimRecommendation
                  | SetUpDmarcRecommendation | AddMxRecommendation

  function AdviceText(a: Advice): string {
    match a
    case AddQualifierRecommendation => "Consider adding ~all or -all to your SPF record for better security"
    case AddSpfRecommendation => "Add an SPF record to prevent email spoofing"
    case SetUpDkimRecommendation => "Set up DKIM authentication with your email provider"
    case SetUpDmarcRecommendation => "Set up a DMARC policy to protect against email spoofing"
    case AddMxRecommendation => "Add MX records to enable email delivery"
  }

  // ---------------------------------------------------------------- SPF


  /** The `+all` qualifier (section 4.6.2 of RFC 7208) lets every sender pass. */
  predicate AllowsAll(r: string) { Contains(r, "+all") }

  /** The `?all` qualifier gives a neutral result for every sender. */
  predicate NeutralAll(r: string) { Contains(r, "?all") }

  /** A `-all` (fail) or `~all` (soft fail) qualifier. */
  predicate Enforces(r: string) { Contains(r, "-all") || Contains(r, "~all") }

  /** The issues one SPF record contributes, `+all` before `?all`. */
  function RecordQualifierIssues(r: string): seq<Issue> {
    (if AllowsAll(r) then [PlusAllIssue] else []) + (if NeutralAll(r) then [NeutralIssue] else [])
  }

  /** The per-record issues of `records`, in record order. */
  function QualifierIssues(records: seq<string>): seq<Issue>
    decreases |records|
  {
    if records == [] then []
    else QualifierIssues(records[..|records| - 1]) + RecordQualifierIssues(records[|records| - 1])
  }

  predicate SpfValid(records: seq<string>) {
    exists i :: 0 <= i < |records| && Enforces(records[i])
  }

  /** All SPF issues: one per qualifier problem, then the multiple-record error. */
  function SpfIssues(records: seq<string>): seq<Issue> {
    if records == [] then [NoSpfIssue]
    else QualifierIssues(records) + (if |records| > 1 then [MultipleSpfIssue] else [])
  }

  function SpfRecommendations(records: seq<string>): seq<Advice> {
    if records == [] then [AddSpfRecommendation]
    else if !SpfValid(records) && SpfIssues(records) == [] then [AddQualifierRecommendation]
    else []
  }

  datatype SpfAnalysis = SpfAnalysis(present: bool, count: nat, records: seq<string>, hasMultiple: bool,
                                     isValid: bool, issues: seq<Issue>, recommendations: seq<Advice>)

  /** The SPF part of the analysis over the first strings of the SPF records. */
  method AnalyzeSpf(records: seq<string>) returns (a: SpfAnalysis)
    ensures a.present <==> |records| > 0
    ensures a.count == |records| && a.records == records && (a.hasMultiple <==> |records| > 1)
    ensures a.isValid <==> SpfValid(records)
    ensures a.issues == SpfIssues(records)
    ensures a.recommendations == SpfRecommendations(records)
  {
    if |records| == 0 {
      return SpfAnalysis(false, 0, records, false, false, [NoSpfIssue], [AddSpfRecommendation]);
    }
    {
      var issues: seq<Issue> := [];
      var valid := false;
      var i := 0;
      while i < |records|
        invariant 0 <= i <= |records|
        invariant issues == QualifierIssues(records[..i])
        invariant valid == SpfValid(records[..i])
      {
        var added, enforces := JudgeSpfRecord(records[i]);
        assert records[..i + 1][..i] == records[..i];
        SpfValidStep(records, i);
        issues := issues + added;
        if enforces {
          valid := true;
        }
        i := i + 1;
      }
      assert records[..i] == records;
      if |records| > 1 {
        issues := issues + [MultipleSpfIssue];
      }
      var recommendations: seq<Advice> := [];
      if !valid && |issues| == 0 {
        recommendations := recommendations + [AddQualifierRecommendation];
      }
      a := SpfAnalysis(true, |records|, records, |records| > 1, valid, issues, recommendations);
    }
  }

  lemma SpfValidStep(records: seq<string>, i: nat)
    requires i < |records|
    ensures SpfValid(records[..i + 1]) == (SpfValid(records[..i]) || Enforces(records[i]))
  {
    var next := records[..i + 1];
    assert next[i] == records[i];
    assert forall j :: 0 <= j < i ==> next[j] == records[..i][j];
  }

  /** The qualifier tests of one SPF record, in the order the analysis makes them:
      `+all` adds an issue, `-all` or `~all` makes the set valid, `?all` adds an issue. */
  method JudgeSpfRecord(record: string) returns (added: seq<Issue>, enforces: bool)
    ensures added == RecordQualifierIssues(record) && enforces == Enforces(record)
  {
    added := [];
    enforces := false;
    if Contains(record, "+all") {
      added := added + [PlusAllIssue];
    }
    if Contains(record, "-all") {
      enforces := true;
    }
    if Contains(record, "~all") {
      enforces := true;
    }
    if Contains(record, "?all") {
      added := added + [NeutralIssue];
    }
  }

  /** Each record with `+all` adds exactly one `+all` issue. */
  lemma PlusAllIssueCount(records: seq<string>)
    ensures multiset(QualifierIssues(records))[PlusAllIssue] == |Filter(records, AllowsAll)|
  {
    forall r ensures multiset(RecordQualifierIssues(r))[PlusAllIssue] == if AllowsAll(r) then 1 else 0 {
      RecordIssueCounts(r);
    }
    IssueCountFollows(records, AllowsAll, PlusAllIssue);
  }

  /** Each record with `?all` adds exactly one `?all` issue. */
  lemma NeutralIssueCount(records: seq<string>)
    ensures multiset(QualifierIssues(records))[NeutralIssue] == |Filter(records, NeutralAll)|
  {
    forall r ensures multiset(RecordQualifierIssues(r))[NeutralIssue] == if NeutralAll(r) then 1 else 0 {
      RecordIssueCounts(r);
    }
    IssueCountFollows(records, NeutralAll, NeutralIssue);
  }

  /** When every record adds one `issue` exactly when it satisfies `keep`, the
      issues hold one `issue` per such record. */
  lemma {:induction false} IssueCountFollows(records: seq<string>, keep: string -> bool, issue: Issue)
    requires forall r :: multiset(RecordQualifierIssues(r))[issue] == if keep(r) then 1 else 0
    ensures multiset(QualifierIssues(records))[issue] == |Filter(records, keep)|
  {
    if records != [] {
      var init := records[..|records| - 1];
      var last := records[|records| - 1];
      var before, added := QualifierIssues(init), RecordQualifierIssues(last);
      calc {
        multiset(QualifierIssues(records))[issue];
        multiset(before + added)[issue];
        { CountAppend(before, added, issue); }
        multiset(before)[issue] + multiset(added)[issue];
        { IssueCountFollows(init, keep, issue); }
        |Filter(init, keep)| + (if keep(last) then 1 else 0);
        { assert records == init + [last]; FilterSnoc(init, last, keep); }
        |Filter(records, keep)|;
      }
    }
  }

  lemma CountAppend(a: seq<Issue>, b: seq<Issue>, x: Issue)
    ensures multiset(a + b)[x] == multiset(a)[x] + multiset(b)[x]
  {
    assert multiset(a + b) == multiset(a) + multiset(b);
  }

  lemma RecordIssueCounts(r: string)
    ensures multiset(RecordQualifierIssues(r))[PlusAllIssue] == if AllowsAll(r) then 1 else 0
    ensures multiset(RecordQualifierIssues(r))[NeutralIssue] == if NeutralAll(r) then 1 else 0
  {
  }

  /** Only the two qualifier issues are produced per record. */
  lemma {:induction false} QualifierIssuesAreQualifierProblems(records: seq<string>)
    ensures forall m :: m in QualifierIssues(records) ==> m == PlusAllIssue || m == NeutralIssue
  {
    if records != [] {
      QualifierIssuesAreQualifierProblems(records[..|records| - 1]);
    }
  }

  /** The multiple-record issue is reported exactly when there is more than one record. */
  lemma MultipleSpfIssueIff(records: seq<string>)
    ensures MultipleSpfIssue in SpfIssues(records) <==> |records| > 1
  {
    QualifierIssuesAreQualifierProblems(records);
  }

  /** The qualifier recommendation appears only for an unenforced record set without
      issues; then there is a single record, and it has neither `+all` nor `?all`. */
  lemma QualifierRecommendationOnlyWhenQuiet(records: seq<string>)
    ensures AddQualifierRecommendation in SpfRecommendations(records) <==>
              records != [] && !SpfValid(records) && SpfIssues(records) == []
    ensures AddQualifierRecommendation in SpfRecommendations(records) ==>
              |records| == 1 && !AllowsAll(records[0]) && !NeutralAll(records[0])
  {
    if AddQualifierRecommendation in SpfRecommendations(records) {
      MultipleSpfIssueIff(records);
      assert |records| == 1;
      assert records[..0] == [];
      assert QualifierIssues(records) == RecordQualifierIssues(records[0]);
    }
  }

  /** Without SPF records there is exactly one issue and one recommendation. */
  lemma NoSpfRecordOutcome()
    ensures SpfIssues([]) == [NoSpfIssue] && SpfRecommendations([]) == [AddSpfRecommendation]
    ensures !SpfValid([])
  {
  }

  // ---------------------------------------------------------------- DKIM


  /** The key size the analyzer estimates from `n` base64 characters of a public
      key (`p=` tag, section 3.6.1 of RFC 6376): `floor(n * 3 / 4) * 8` bits. */
  function KeyBits(n: nat): nat {
    (n * 3 / 4) * 8
  }

  /** The estimate falls below 1024 bits exactly for payloads of at most 170 characters. */
  lemma KeyBitsThreshold(n: nat)
    ensures KeyBits(n) < 1024 <==> n <= 170
  {
    var q := n * 3 / 4;
    assert q * 4 <= n * 3 < q * 4 + 4;
    if n <= 170 {
      assert q < 128;
    } else {
      assert q >= 128;
    }
  }

  /** The `k=rsa; p=` payload of a DKIM record, when it has one. */
  function RsaKey(r: string): Option<string> {
    Capture(r, "k=rsa; p=", IsBase64Char)
  }

  /** A record whose RSA key payload estimates to fewer than 1024 bits. */
  predicate IsShortKey(r: string) {
    Contains(r, "k=rsa") && RsaKey(r).Some? && KeyBits(|RsaKey(r).value|) < 1024
  }

  predicate DeclaresDkim(r: string) { Contains(r, "v=DKIM1") }

  predicate DkimValid(records: seq<string>) {
    exists i :: 0 <= i < |records| && DeclaresDkim(records[i])
  }

  /** One short-key issue per short-key record, in record order. */
  function KeyIssues(records: seq<string>): seq<Issue>
    decreases |records|
  {
    if records == [] then []
    else KeyIssues(records[..|records| - 1]) + (if IsShortKey(records[|records| - 1]) then [ShortKeyIssue] else [])
  }

  function DkimIssues(records: seq<string>): seq<Issue> {
    if records == [] then [NoDkimIssue] else KeyIssues(records)
  }

  datatype DkimAnalysis = DkimAnalysis(present: bool, count: nat, records: seq<string>,
                                       isValid: bool, issues: seq<Issue>, recommendations: seq<Advice>)

  /** The DKIM part of the analysis over the first strings of the selector records. */
  method AnalyzeDkim(records: seq<string>) returns (a: DkimAnalysis)
    ensures a.present <==> |records| > 0
    ensures a.count == |records| && a.records == records
    ensures a.isValid <==> DkimValid(records)
    ensures a.issues == DkimIssues(records)
    ensures a.recommendations == (if records == [] then [SetUpDkimRecommendation] else [])
  {
    if |records| == 0 {
      return DkimAnalysis(false, 0, records, false, [NoDkimIssue], [SetUpDkimRecommendation]);
    }
    var issues: seq<Issue> := [];
    var valid := false;
    var i := 0;
    while i < |records|
      invariant 0 <= i <= |records|
      invariant issues == KeyIssues(records[..i])
      invariant valid == DkimValid(records[..i])
    {
      var declares, short := JudgeDkimRecord(records[i]);
      assert records[..i + 1][..i] == records[..i];
      DkimValidStep(records, i);
      if declares {
        valid := true;
      }
      if short {
        issues := issues + [ShortKeyIssue];
      }
      i := i + 1;
    }
    assert records[..i] == records;
    a := DkimAnalysis(true, |records|, records, valid, issues, []);
  }

  lemma DkimValidStep(records: seq<string>, i: nat)
    requires i < |records|
    ensures DkimValid(records[..i + 1]) == (DkimValid(records[..i]) || DeclaresDkim(records[i]))
  {
    var next := records[..i + 1];
    assert next[i] == records[i];
    assert forall j :: 0 <= j < i ==> next[j] == records[..i][j];
  }

  /** The tests of one DKIM record: the version tag, and an RSA key whose
      estimated length is under 1024 bits. */
  method JudgeDkimRecord(record: string) returns (declares: bool, short: bool)
    ensures declares == DeclaresDkim(record) && short == IsShortKey(record)
  {
    declares := Contains(record, "v=DKIM1");
    short := false;
    if Contains(record, "k=rsa") {
      var keyMatch := Capture(record, "k=rsa; p=", IsBase64Char);
      if keyMatch.Some? {
        var keyLength := (|keyMatch.value| * 3 / 4) * 8;
        if keyLength < 1024 {
          short := true;
        }
      }
    }
  }

  /** The DKIM issues of a present record set are exactly one short-key issue per
      record whose key payload is at most 170 base64 characters. */
  lemma {:induction false} KeyIssuesCount(records: seq<string>)
    ensures |KeyIssues(records)| == |Filter(records, IsShortKey)|
    ensures forall m :: m in KeyIssues(records) ==> m == ShortKeyIssue
  {
    if records != [] {
      var init := records[..|records| - 1];
      var last := records[|records| - 1];
      KeyIssuesCount(init);
      assert records == init + [last];
      FilterSnoc(init, last, IsShortKey);
    }
  }

  /** A record is short-keyed exactly when it names `k=rsa` and its `k=rsa; p=`
      payload has at most 170 characters. */
  lemma ShortKeyIff(r: string)
    ensures IsShortKey(r) <==> Contains(r, "k=rsa") && RsaKey(r).Some? && |RsaKey(r).value| <= 170
  {
    if RsaKey(r).Some? {
      KeyBitsThreshold(|RsaKey(r).value|);
    }
  }

  // ---------------------------------------------------------------- DMARC


  /** The tags of one DMARC record (section 6.3 of RFC 7489) as the analyzer finds
      them: the first `p=`, `pct=`, `rua=` and `ruf=` values, by unanchored search. */
  datatype DmarcTags = DmarcTags(policy: Option<string>, percentage: Option<nat>,
                                 rua: Option<string>, ruf: Option<string>)

  function TagsOf(r: string): DmarcTags {
    DmarcTags(Capture(r, "p=", NotSemicolon), LiveRecords.PercentTag(r),
              Capture(r, "rua=", NotSemicolon), Capture(r, "ruf=", NotSemicolon))
  }

  function AllTags(records: seq<string>): (ts: seq<DmarcTags>)
    ensures |ts| == |records| && forall i :: 0 <= i < |records| ==> ts[i] == TagsOf(records[i])
  {
    seq(|records|, i requires 0 <= i < |records| => TagsOf(records[i]))
  }

  /** The DMARC fields the analyzer carries from one record to the next. */
  datatype DmarcState = DmarcState(policy: string, percentage: nat, rua: Option<string>, ruf: Option<string>,
                                   isValid: bool, issues: seq<Issue>)

  const InitialDmarc := DmarcState("none", 100, None, None, false, [])

  predicate IsEnforcing(policy: string) { policy == "quarantine" || policy == "reject" }

  /** The tags of one record overwrite the carried ones where present; then the
      policy and the reporting address are judged. */
  function DmarcStep(st: DmarcState, t: DmarcTags): DmarcState {
    var p := if t.policy.Some? then ToLower(t.policy.value) else st.policy;
    var u := if t.rua.Some? then t.rua else st.rua;
    var judged := if p == "none" then st.issues + [WeakPolicyIssue] else st.issues;
    DmarcState(p, if t.percentage.Some? then t.percentage.value else st.percentage, u,
               if t.ruf.Some? then t.ruf else st.ruf,
               st.isValid || (p != "none" && IsEnforcing(p)),
               if u.None? then judged + [NoRuaIssue] else judged)
  }

  /** The state after the records whose tags are `ts`, in order. */
  function DmarcFold(ts: seq<DmarcTags>): DmarcState
    decreases |ts|
  {
    if ts == [] then InitialDmarc
    else DmarcStep(DmarcFold(ts[..|ts| - 1]), ts[|ts| - 1])
  }

  /** The value of the last tag `pick` finds, if any. */
  function LastGiven<T>(ts: seq<DmarcTags>, pick: DmarcTags -> Option<T>): (r: Option<T>)
    decreases |ts|
    ensures r.Some? ==> exists i :: 0 <= i < |ts| && r == pick(ts[i]) &&
                                    forall j :: i < j < |ts| ==> pick(ts[j]).None?
    ensures r.None? ==> forall i :: 0 <= i < |ts| ==> pick(ts[i]).None?
  {
    if ts == [] then None
    else
      var init := ts[..|ts| - 1];
      assert forall i :: 0 <= i < |init| ==> init[i] == ts[i];
      var c := pick(ts[|ts| - 1]);
      if c.Some? then
        assert |ts| - 1 < |ts| && c == pick(ts[|ts| - 1]);
        c
      else LastGiven(init, pick)
  }

  function PolicyTag(t: DmarcTags): Option<string> { t.policy }
  function PercentageTag(t: DmarcTags): Option<nat> { t.percentage }
  function RuaTag(t: DmarcTags): Option<string> { t.rua }
  function RufTag(t: DmarcTags): Option<string> { t.ruf }

  /** Later records override earlier ones tag by tag: the policy is the lower-cased
      value of the last `p=` tag (default `none`), the percentage the last `pct=`
      (default 100), and `rua`, `ruf` are the last values given (default null). */
  lemma {:induction false} DmarcTagsAreLastGiven(ts: seq<DmarcTags>)
    ensures DmarcFold(ts).policy ==
              (if LastGiven(ts, PolicyTag).Some? then ToLower(LastGiven(ts, PolicyTag).value) else "none")
    ensures DmarcFold(ts).percentage == LastGiven(ts, PercentageTag).GetOr(100)
    ensures DmarcFold(ts).rua == LastGiven(ts, RuaTag)
    ensures DmarcFold(ts).ruf == LastGiven(ts, RufTag)
  {
    if ts != [] {
      DmarcTagsAreLastGiven(ts[..|ts| - 1]);
    }
  }

  /** The carried policy after the first `i + 1` records is `quarantine` or `reject`. */
  predicate EnforcingAfter(ts: seq<DmarcTags>, i: nat)
    requires i < |ts|
  {
    IsEnforcing(DmarcFold(ts[..i + 1]).policy)
  }

  /** `isValid` holds exactly when the carried policy was `quarantine` or `reject`
      after some record. */
  lemma {:induction false} DmarcValidIff(ts: seq<DmarcTags>)
    ensures DmarcFold(ts).isValid <==> exists i :: 0 <= i < |ts| && EnforcingAfter(ts, i)
  {
    if ts != [] {
      var n := |ts| - 1;
      var init := ts[..n];
      DmarcValidIff(init);
      assert ts[..n + 1] == ts;
      assert EnforcingAfter(ts, n) == IsEnforcing(DmarcFold(ts).policy);
      assert DmarcFold(ts).isValid == (DmarcFold(init).isValid || IsEnforcing(DmarcFold(ts).policy));
      forall i | 0 <= i < n ensures EnforcingAfter(init, i) == EnforcingAfter(ts, i) {
        assert init[..i + 1] == ts[..i + 1];
      }
    }
  }

  /** Judging never forgets: the issues so far stay, in order, at the front. */
  lemma DmarcIssuesGrow(ts: seq<DmarcTags>, t: DmarcTags)
    ensures DmarcFold(ts + [t]).issues[..|DmarcFold(ts).issues|] == DmarcFold(ts).issues
  {
    assert (ts + [t])[..|ts|] == ts;
  }

  /** When the records leave no reporting address, the missing-`rua` issue is
      reported, whatever the policy; a carried policy `none` is reported too. */
  lemma LastRecordIsJudged(ts: seq<DmarcTags>)
    requires ts != []
    ensures LastGiven(ts, RuaTag).None? ==> NoRuaIssue in DmarcFold(ts).issues
    ensures DmarcFold(ts).policy == "none" ==> WeakPolicyIssue in DmarcFold(ts).issues
  {
    DmarcTagsAreLastGiven(ts);
  }

  /** A single record with an enforcing policy and no `rua=` is valid and still gets
      the reporting-address issue, and only that one. */
  lemma StrongPolicyWithoutRua(t: DmarcTags)
    requires t.policy.Some? && IsEnforcing(ToLower(t.policy.value)) && t.rua.None?
    ensures DmarcFold([t]).isValid && DmarcFold([t]).issues == [NoRuaIssue]
  {
    assert [t][..0] == [];
  }

  datatype DmarcAnalysis = DmarcAnalysis(present: bool, count: nat, records: seq<string>, policy: string,
                                         percentage: nat, rua: Option<string>, ruf: Option<string>,
                                         isValid: bool, issues: seq<Issue>, recommendations: seq<Advice>)

  /** The body of the per-record callback: read the tags of `record` into the
      carried fields, then judge the policy and the reporting address. */
  method JudgeDmarcRecord(st: DmarcState, record: string) returns (next: DmarcState)
    ensures next == DmarcStep(st, TagsOf(record))
  {
    var policy, percentage, rua, ruf, valid, issues := st.policy, st.percentage, st.rua, st.ruf, st.isValid, st.issues;
    var tags := TagsOf(record);
    if tags.policy.Some? {
      policy := ToLower(tags.policy.value);
    }
    if tags.percentage.Some? {
      percentage := tags.percentage.value;
    }
    if tags.rua.Some? {
      rua := tags.rua;
    }
    if tags.ruf.Some? {
      ruf := tags.ruf;
    }
    if policy == "none" {
      issues := issues + [WeakPolicyIssue];
    } else if policy == "quarantine" || policy == "reject" {
      valid := true;
    }
    if rua.None? {
      issues := issues + [NoRuaIssue];
    }
    next := DmarcState(policy, percentage, rua, ruf, valid, issues);
  }

  /** The DMARC part of the analysis over the first strings of the DMARC records. */
  method AnalyzeDmarc(records: seq<string>) returns (a: DmarcAnalysis)
    ensures a.present <==> |records| > 0
    ensures a.count == |records| && a.records == records
    ensures records == [] ==> a == DmarcAnalysis(false, 0, [], "none", 100, None, None, false,
                                                 [NoDmarcIssue], [SetUpDmarcRecommendation])
    ensures records != [] ==>
              var st := DmarcFold(AllTags(records));
              a == DmarcAnalysis(true, |records|, records, st.policy, st.percentage, st.rua, st.ruf,
                                 st.isValid, st.issues, [])
  {
    if |records| == 0 {
      return DmarcAnalysis(false, 0, [], "none", 100, None, None, false, [NoDmarcIssue], [SetUpDmarcRecommendation]);
    }
    var st := InitialDmarc;
    ghost var ts := AllTags(records);
    var i := 0;
    while i < |records|
      invariant 0 <= i <= |records|
      invariant st == DmarcFold(ts[..i])
    {
      assert ts[..i + 1][..i] == ts[..i];
      st := JudgeDmarcRecord(st, records[i]);
      i := i + 1;
    }
    assert ts[..i] == ts;
    a := DmarcAnalysis(true, |records|, records, st.policy, st.percentage, st.rua, st.ruf, st.isValid, st.issues, []);
  }
}
