/** The MX part of `checkDomainWithMXToolbox` and `identifyEmailProvider`
    (src/lib/domain-health/mxtoolbox-api.js): the in-place sort of the MX records
    by priority, the provider identification over the pattern table, and the
    redundancy and priority-0 checks. */
module MxChecks {
  import opened Text
  import opened Dns
  import opened Providers
  import opened RecordChecks
  import LiveRecords

  // ---------------------------------------------------------------- sorting

  predicate SortedByPriority(s: seq<MxRecord>) {
    forall k, l :: 0 <= k < l < |s| ==> s[k].priority <= s[l].priority
  }

  /** `records.sort((a, b) => a.priority - b.priority)`, as an insertion sort that
      swaps a record left past every record of strictly higher priority. */
  method SortByPriority(a: array<MxRecord>)
    modifies a
    ensures SortedByPriority(a[..])
    ensures multiset(a[..]) == multiset(old(a[..]))
  {
    if a.Length == 0 {
      return;
    }
    var i := 1;
    while i < a.Length
      invariant 1 <= i <= a.Length
      invariant SortedByPriority(a[..i])
      invariant multiset(a[..]) == multiset(old(a[..]))
    {
      var j := i;
      while j > 0 && a[j - 1].priority > a[j].priority
        invariant 0 <= j <= i
        invariant forall k, l :: 0 <= k < l <= i && k != j && l != j ==> a[k].priority <= a[l].priority
        invariant forall l :: j < l <= i ==> a[j].priority <= a[l].priority
        invariant multiset(a[..]) == multiset(old(a[..]))
      {
        SwapAdjacent(a, j);
        j := j - 1;
      }
      i := i + 1;
    }
    assert a[..i] == a[..];
  }

  /** Exchange the records at `j - 1` and `j`. */
  method SwapAdjacent(a: array<MxRecord>, j: int)
    requires 0 < j < a.Length
    modifies a
    ensures a[..] == old(a[..])[j - 1 := old(a[j])][j := old(a[j - 1])]
    ensures multiset(a[..]) == multiset(old(a[..]))
  {
    a[j - 1], a[j] := a[j], a[j - 1];
  }

  // ---------------------------------------------------------------- provider

  /** `mxRecords.some(record => pattern.test(record.exchange))` for a literal,
      case-insensitive pattern. */
  predicate AnyExchangeMatches(records: seq<MxRecord>, pattern: string) {
    exists j :: 0 <= j < |records| && MatchesIgnoringCase(records[j].exchange, pattern)
  }

  /** Some pattern of `p` matches some record's exchange. */
  predicate Hits(p: Provider, records: seq<MxRecord>) {
    exists n :: 0 <= n < |p.patterns| && AnyExchangeMatches(records, p.patterns[n])
  }

  const CustomMatch := LiveRecords.BestMatch("custom", "Custom/Private Server", 70)

  /** The best match after the entries of `table`, in order, starting from the
      custom-server match: an entry that hits replaces it only with a strictly
      higher confidence. */
  function IdentifyAfter(table: seq<Provider>, records: seq<MxRecord>): LiveRecords.BestMatch
    decreases |table|
  {
    if table == [] then CustomMatch
    else
      var b := IdentifyAfter(table[..|table| - 1], records);
      var p := table[|table| - 1];
      if Hits(p, records) && p.confidence > b.confidence then LiveRecords.MatchFor(p) else b
  }

  /** `identifyEmailProvider`: every pattern of every entry, in table order, is
      tried against all records. */
  method IdentifyEmailProvider(table: seq<Provider>, records: seq<MxRecord>) returns (best: LiveRecords.BestMatch)
    ensures best == IdentifyAfter(table, records)
  {
    best := CustomMatch;
    var k := 0;
    while k < |table|
      invariant 0 <= k <= |table|
      invariant best == IdentifyAfter(table[..k], records)
    {
      var provider := table[k];
      ghost var before := best;
      assert table[..k + 1][..k] == table[..k];
      var n := 0;
      while n < |provider.patterns|
        invariant 0 <= n <= |provider.patterns|
        invariant best == if (exists m :: 0 <= m < n && AnyExchangeMatches(records, provider.patterns[m])) &&
                             provider.confidence > before.confidence
                          then LiveRecords.MatchFor(provider) else before
      {
        if AnyExchangeMatches(records, provider.patterns[n]) {
          if provider.confidence > best.confidence {
            best := LiveRecords.MatchFor(provider);
          }
        }
        n := n + 1;
      }
      k := k + 1;
    }
    assert table[..k] == table;
  }

  /** The identified provider never ranks below the custom-server start value. */
  lemma {:induction false} IdentifyAtLeastCustom(table: seq<Provider>, records: seq<MxRecord>)
    ensures IdentifyAfter(table, records).confidence >= 70
  {
    if table != [] {
      IdentifyAtLeastCustom(table[..|table| - 1], records);
    }
  }

  /** The identified provider has the highest confidence of every entry that hits. */
  lemma {:induction false} IdentifyIsMaximal(table: seq<Provider>, records: seq<MxRecord>)
    ensures forall k :: 0 <= k < |table| && Hits(table[k], records) ==>
              table[k].confidence <= IdentifyAfter(table, records).confidence
  {
    if table != [] {
      var init := table[..|table| - 1];
      IdentifyIsMaximal(init, records);
      assert forall k :: 0 <= k < |init| ==> init[k] == table[k];
    }
  }

  /** Unless the result is the custom-server start value, it is the earliest entry
      that hits with the highest confidence. */
  lemma {:induction false} IdentifyIsEarliest(table: seq<Provider>, records: seq<MxRecord>)
    ensures IdentifyAfter(table, records) == CustomMatch ||
            exists k :: 0 <= k < |table| && Hits(table[k], records) &&
                        IdentifyAfter(table, records) == LiveRecords.MatchFor(table[k]) &&
                        forall j :: 0 <= j < k && Hits(table[j], records) ==>
                          table[j].confidence < IdentifyAfter(table, records).confidence
  {
    if table != [] {
      var init := table[..|table| - 1];
      var last := table[|table| - 1];
      IdentifyIsEarliest(init, records);
      IdentifyIsMaximal(init, records);
      assert forall k :: 0 <= k < |init| ==> init[k] == table[k];
    }
  }

  lemma ToolboxConfidencesAtMost95()
    ensures forall k :: 0 <= k < |ToolboxProviders| ==> ToolboxProviders[k].confidence <= 95
  {
  }

  /** Google is first in the table at the top confidence, so a Google exchange
      decides the result, whatever other providers also appear. */
  lemma GoogleWins(records: seq<MxRecord>)
    requires Hits(ToolboxProviders[0], records)
    ensures IdentifyAfter(ToolboxProviders, records) == LiveRecords.MatchFor(ToolboxProviders[0])
  {
    IdentifyIsMaximal(ToolboxProviders, records);
    IdentifyIsEarliest(ToolboxProviders, records);
    ToolboxConfidencesAtMost95();
    var r := IdentifyAfter(ToolboxProviders, records);
    assert r.confidence == 95;
    assert r != CustomMatch;
    var k :| 0 <= k < |ToolboxProviders| && Hits(ToolboxProviders[k], records) &&
             r == LiveRecords.MatchFor(ToolboxProviders[k]) &&
             forall j :: 0 <= j < k && Hits(ToolboxProviders[j], records) ==> ToolboxProviders[j].confidence < r.confidence;
    assert k == 0;
  }

  /** Only which records exist matters, not their order. */
  lemma {:induction false} IdentifyIgnoresOrder(table: seq<Provider>, r1: seq<MxRecord>, r2: seq<MxRecord>)
    requires multiset(r1) == multiset(r2)
    ensures IdentifyAfter(table, r1) == IdentifyAfter(table, r2)
  {
    SameMembers(r1, r2);
    forall p: Provider ensures Hits(p, r1) == Hits(p, r2) {
      forall pattern: string ensures AnyExchangeMatches(r1, pattern) == AnyExchangeMatches(r2, pattern) {
        MatchesTransfer(r1, r2, pattern);
        MatchesTransfer(r2, r1, pattern);
      }
    }
    if table != [] {
      IdentifyIgnoresOrder(table[..|table| - 1], r1, r2);
    }
  }

  lemma MatchesTransfer(r1: seq<MxRecord>, r2: seq<MxRecord>, pattern: string)
    requires forall x :: x in r1 ==> x in r2
    ensures AnyExchangeMatches(r1, pattern) ==> AnyExchangeMatches(r2, pattern)
  {
    if AnyExchangeMatches(r1, pattern) {
      var j :| 0 <= j < |r1| && MatchesIgnoringCase(r1[j].exchange, pattern);
      assert r1[j] in r2;
      var j2 :| 0 <= j2 < |r2| && r2[j2] == r1[j];
    }
  }

  lemma SameMembers(r1: seq<MxRecord>, r2: seq<MxRecord>)
    requires multiset(r1) == multiset(r2)
    ensures forall x :: x in r1 <==> x in r2
  {
    forall x ensures x in r1 <==> x in r2 {
      assert x in r1 <==> x in multiset(r1);
      assert x in r2 <==> x in multiset(r2);
    }
  }

  // ---------------------------------------------------------------- analysis

  predicate HasPriorityZero(records: seq<MxRecord>) {
    exists j :: 0 <= j < |records| && records[j].priority == 0
  }

  /** The MX issues of a non-empty record set: no backup exchange, then a priority-0 record. */
  function MxIssues(records: seq<MxRecord>): seq<Issue> {
    if records == [] then [NoMxIssue]
    else (if |records| == 1 then [SingleMxIssue] else []) + (if HasPriorityZero(records) then [PriorityZeroMxIssue] else [])
  }

  datatype MxAnalysis = MxAnalysis(present: bool, count: nat, records: seq<MxRecord>, provider: string,
                                   providerName: string, confidence: nat, isValid: bool,
                                   issues: seq<Issue>, recommendations: seq<Advice>)

  /** The MX part of the analysis; `isValid` is never raised. */
  method AnalyzeMx(records: seq<MxRecord>) returns (a: MxAnalysis)
    ensures a.present <==> |records| > 0
    ensures a.count == |records| && !a.isValid
    ensures SortedByPriority(a.records) && multiset(a.records) == multiset(records)
    ensures records == [] ==> a.provider == "Unknown" && a.providerName == "Unknown Provider" && a.confidence == 0 &&
                              a.recommendations == [AddMxRecommendation]
    ensures records != [] ==>
              var b := IdentifyAfter(ToolboxProviders, records);
              a.provider == b.provider && a.providerName == b.name && a.confidence == b.confidence &&
              a.recommendations == []
    ensures a.issues == MxIssues(records)
  {
    if |records| == 0 {
      return MxAnalysis(false, 0, [], "Unknown", "Unknown Provider", 0, false, [NoMxIssue], [AddMxRecommendation]);
    }
    var arr := new MxRecord[|records|](i requires 0 <= i < |records| => records[i]);
    assert arr[..] == records;
    SortByPriority(arr);
    var sorted := arr[..];
    var best := IdentifyEmailProvider(ToolboxProviders, sorted);
    IdentifyIgnoresOrder(ToolboxProviders, sorted, records);
    var issues: seq<Issue> := [];
    if |sorted| == 1 {
      issues := issues + [SingleMxIssue];
    }
    var zero := exists j :: 0 <= j < |sorted| && sorted[j].priority == 0;
    assert zero == HasPriorityZero(records) by {
      SameMembers(sorted, records);
      if zero {
        var j :| 0 <= j < |sorted| && sorted[j].priority == 0;
        assert sorted[j] in records;
      }
      if HasPriorityZero(records) {
        var j :| 0 <= j < |records| && records[j].priority == 0;
        assert records[j] in sorted;
      }
    }
    if zero {
      issues := issues + [PriorityZeroMxIssue];
    }
    a := MxAnalysis(true, |sorted|, sorted, best.provider, best.name, best.confidence, false, issues, []);
  }
}
