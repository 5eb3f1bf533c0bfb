/** `checkSpamHousesEnhanced` (src/lib/domain-health/mxtoolbox-api.js): one A
    lookup of `domain.zone` per spam house, in the list-structure of section 3 of
    RFC 5782, turned into listed and clean results and a summary. */
module SpamHouses {
  import opened Text
  import opened Dns

  datatype SpamHouse = SpamHouse(name: string, zone: string, timeoutMs: nat)

  const Houses: seq<SpamHouse> := [
    SpamHouse("SpamHaus DBL", "dbl.spamhaus.org", 3000),
    SpamHouse("SpamHaus ZEN", "zen.spamhaus.org", 3000),
    SpamHouse("SURBL", "multi.surbl.org", 3000),
    SpamHouse("URIBL", "multi.uribl.com", 3000),
    SpamHouse("SORBS", "dnsbl.sorbs.net", 3000),
    SpamHouse("Barracuda", "b.barracudacentral.org", 3000),
    SpamHouse("SpamCop", "bl.spamcop.net", 3000),
    SpamHouse("Invaluement", "dnsbl.invaluement.com", 3000),
    SpamHouse("AbuseAt CBL", "cbl.abuseat.org", 3000)
  ]

  datatype HouseResult = HouseResult(name: string, zone: string, isListed: bool, records: Option<seq<string>>,
                                     status: string, error: Option<string>)

  /** The result for one house: an answer before the timeout means listed; any
      failure means clean, reported as `Timeout` when the error says so and as
      `Not listed` otherwise. */
  function HouseCheck(domain: string, h: SpamHouse, dns: Resolver): (r: HouseResult)
    ensures r.name == h.name && r.zone == h.zone
    ensures r.isListed <==> dns(domain + "." + h.zone).Resolved?
    ensures r.isListed <==> r.status == "LISTED"
    ensures !r.isListed ==> r.status == "CLEAN" && r.records.None? && r.error.Some?
    ensures r.isListed ==> r.records == Some(dns(domain + "." + h.zone).addresses) && r.error.None?
    ensures r.error == Some("Timeout") <==>
              dns(domain + "." + h.zone).TimedOut? || dns(domain + "." + h.zone) == Failed("Timeout")
  {
    match dns(domain + "." + h.zone)
    case Resolved(addresses) => HouseResult(h.name, h.zone, true, Some(addresses), "LISTED", None)
    case Failed(message) =>
      HouseResult(h.name, h.zone, false, None, "CLEAN", Some(if message == "Timeout" then "Timeout" else "Not listed"))
    case TimedOut => HouseResult(h.name, h.zone, false, None, "CLEAN", Some("Timeout"))
  }

  function HouseChecks(domain: string, houses: seq<SpamHouse>, dns: Resolver): (rs: seq<HouseResult>)
    ensures |rs| == |houses| && forall i :: 0 <= i < |houses| ==> rs[i] == HouseCheck(domain, houses[i], dns)
  {
    seq(|houses|, i requires 0 <= i < |houses| => HouseCheck(domain, houses[i], dns))
  }

  predicate IsListedHouse(r: HouseResult) { r.isListed }
  predicate IsCleanHouse(r: HouseResult) { !r.isListed }

  datatype SpamHouseSummary = SpamHouseSummary(domain: string, totalChecked: nat, listedCount: nat, cleanCount: nat,
                                               isListed: bool, listedHouses: seq<HouseResult>,
                                               cleanHouses: seq<HouseResult>, confidence: Ratio)

  /** The summary over a list of houses: the listed and clean results partition
      the results, and the confidence is the clean share. */
  function Summarize(domain: string, houses: seq<SpamHouse>, dns: Resolver): (s: SpamHouseSummary)
    ensures s.totalChecked == |houses|
    ensures s.listedHouses == Filter(HouseChecks(domain, houses, dns), IsListedHouse)
    ensures s.cleanHouses == Filter(HouseChecks(domain, houses, dns), IsCleanHouse)
    ensures s.listedCount == |s.listedHouses| && s.cleanCount == |s.cleanHouses|
    ensures s.cleanCount == Unanswered(domain, houses, dns)
    ensures s.listedCount + s.cleanCount == s.totalChecked
    ensures s.isListed <==> s.listedCount > 0
    ensures multiset(s.listedHouses) + multiset(s.cleanHouses) == multiset(HouseChecks(domain, houses, dns))
    ensures forall r :: r in s.listedHouses ==> r.isListed
    ensures forall r :: r in s.cleanHouses ==> !r.isListed
    ensures s.confidence == Ratio(s.cleanCount, s.totalChecked)
  {
    var results := HouseChecks(domain, houses, dns);
    var listed := Filter(results, IsListedHouse);
    var clean := Filter(results, IsCleanHouse);
    FilterPartition(results, IsListedHouse, IsCleanHouse);
    FilterMembers(results, IsListedHouse);
    FilterMembers(results, IsCleanHouse);
    CleanCountIsUnanswered(domain, houses, dns);
    SpamHouseSummary(domain, |results|, |listed|, |clean|, |listed| > 0, listed, clean,
                     Ratio(|clean|, |results|))
  }

  /** The number of houses whose zone gave no answer for the domain. */
  function Unanswered(domain: string, houses: seq<SpamHouse>, dns: Resolver): nat {
    if houses == [] then 0
    else (if dns(domain + "." + houses[0].zone).Resolved? then 0 else 1) + Unanswered(domain, houses[1..], dns)
  }

  /** The clean results are exactly as many as the houses that gave no answer. */
  lemma {:induction false} CleanCountIsUnanswered(domain: string, houses: seq<SpamHouse>, dns: Resolver)
    ensures |Filter(HouseChecks(domain, houses, dns), IsCleanHouse)| == Unanswered(domain, houses, dns)
  {
    if houses != [] {
      var results := HouseChecks(domain, houses, dns);
      assert results[1..] == HouseChecks(domain, houses[1..], dns);
      CleanCountIsUnanswered(domain, houses[1..], dns);
    }
  }

  /** `checkSpamHousesEnhanced` over the nine houses: the domain is reported
      listed exactly when some house's zone answered for it, and each house is
      among the listed exactly when its own zone answered. */
  function CheckSpamHouses(domain: string, dns: Resolver): (s: SpamHouseSummary)
    ensures s.totalChecked == 9 && s.listedCount + s.cleanCount == 9
    ensures s.listedHouses == Filter(HouseChecks(domain, Houses, dns), IsListedHouse)
    ensures s.cleanHouses == Filter(HouseChecks(domain, Houses, dns), IsCleanHouse)
    ensures s.listedCount == |s.listedHouses| && s.cleanCount == |s.cleanHouses|
    ensures s.cleanCount == Unanswered(domain, Houses, dns)
    ensures s.isListed <==> exists i :: 0 <= i < |Houses| && dns(domain + "." + Houses[i].zone).Resolved?
    ensures forall i :: 0 <= i < |Houses| ==>
              (HouseCheck(domain, Houses[i], dns) in s.listedHouses <==> dns(domain + "." + Houses[i].zone).Resolved?)
    ensures s.confidence == Ratio(s.cleanCount, 9)
  {
    ListedIffSomeAnswerIn(domain, Houses, dns);
    EachListedIffAnswered(domain, Houses, dns);
    Summarize(domain, Houses, dns)
  }

  lemma EachListedIffAnswered(domain: string, houses: seq<SpamHouse>, dns: Resolver)
    ensures forall i :: 0 <= i < |houses| ==>
              (HouseCheck(domain, houses[i], dns) in Summarize(domain, houses, dns).listedHouses <==>
               dns(domain + "." + houses[i].zone).Resolved?)
  {
    forall i | 0 <= i < |houses|
      ensures HouseCheck(domain, houses[i], dns) in Summarize(domain, houses, dns).listedHouses <==>
              dns(domain + "." + houses[i].zone).Resolved?
    {
      ListedIffAnsweredIn(domain, houses, dns, i);
    }
  }

  /** A house is among the listed exactly when its zone answered for the domain. */
  lemma ListedIffAnsweredIn(domain: string, houses: seq<SpamHouse>, dns: Resolver, i: nat)
    requires i < |houses|
    ensures HouseCheck(domain, houses[i], dns) in Summarize(domain, houses, dns).listedHouses <==>
              dns(domain + "." + houses[i].zone).Resolved?
  {
    var results := HouseChecks(domain, houses, dns);
    FilterMembers(results, IsListedHouse);
    assert results[i] in results;
  }

  /** The domain is reported listed exactly when some zone answered. */
  lemma ListedIffSomeAnswerIn(domain: string, houses: seq<SpamHouse>, dns: Resolver)
    ensures Summarize(domain, houses, dns).isListed <==>
              exists i :: 0 <= i < |houses| && dns(domain + "." + houses[i].zone).Resolved?
  {
    var s := Summarize(domain, houses, dns);
    var results := HouseChecks(domain, houses, dns);
    FilterMembers(results, IsListedHouse);
    if s.isListed {
      var r := s.listedHouses[0];
      assert r in s.listedHouses;
      assert r in results;
      var i :| 0 <= i < |results| && results[i] == r;
      assert dns(domain + "." + houses[i].zone).Resolved?;
    } else {
      forall i | 0 <= i < |houses| ensures !dns(domain + "." + houses[i].zone).Resolved? {
        ListedIffAnsweredIn(domain, houses, dns, i);
      }
    }
  }
}
