/** The DNS blacklist checker of the key-less path
    (src/lib/domain-health/free-apis.js): the fixed catalog of ten DNSBL zones,
    the process-wide query cache with its five-minute lifetime, the per-zone
    check and the reputation summary built from all ten checks.

    A zone is queried under `<domain>.<zone>`, the domain-name list layout of
    section 3 of RFC 5782; an A-record answer means "listed" and any failure,
    a timeout included, means "not listed". */
module Blacklist {
  import opened Text
  import opened Dns

  datatype Zone = Zone(key: string, zone: string, name: string, description: string,
                       contact: string, timeoutMs: nat)

  /** `BLACKLISTS`, in the order of `Object.keys`. */
  const Catalog: seq<Zone> := [
    Zone("spamhaus_dbl", "dbl.spamhaus.org", "SpamHaus DBL",
         "Domain Block List - blocks domains used for spam", "https://www.spamhaus.org/contact/", 5000),
    Zone("spamhaus_zen", "zen.spamhaus.org", "SpamHaus ZEN",
         "Comprehensive spam and malware blocklist", "https://www.spamhaus.org/contact/", 5000),
    Zone("surbl", "multi.surbl.org", "SURBL",
         "Multi-level URI blacklist", "https://www.surbl.org/contact", 5000),
    Zone("uribl", "multi.uribl.com", "URIBL",
         "URI blacklist for spam domains", "https://uribl.com/contact.shtml", 5000),
    Zone("sorbs", "dnsbl.sorbs.net", "SORBS",
         "Spam and Open Relay Blocking System", "https://www.sorbs.net/contact.shtml", 5000),
    Zone("barracuda", "b.barracudacentral.org", "Barracuda",
         "Barracuda Central reputation service", "https://www.barracudacentral.org/contact", 5000),
    Zone("spamcop", "bl.spamcop.net", "SpamCop",
         "SpamCop DNS blacklist", "https://www.spamcop.net/contact.shtml", 5000),
    Zone("invaluement", "dnsbl.invaluement.com", "Invaluement",
         "Invaluement DNS blacklist", "https://www.invaluement.com/contact", 5000),
    Zone("spamrats", "noptr.spamrats.com", "SpamRats",
         "SpamRats DNS blacklist", "https://www.spamrats.com/contact", 5000),
    Zone("abuseat", "cbl.abuseat.org", "AbuseAt CBL",
         "Composite Blocking List", "https://www.abuseat.org/contact", 5000)
  ]

  /** Lifetime of a cache entry, positive or negative, in milliseconds. */
  const CacheTtlMs: int := 300000

  /** The error message a lookup that loses the race against its timeout carries. */
  const TimeoutMessage: string := "DNS query timeout"

  /** The catalog has ten zones, and no two share a key or a zone suffix. */
  lemma CatalogWellFormed()
    ensures |Catalog| == 10
    ensures forall i, j :: 0 <= i < j < |Catalog| ==> Catalog[i].key != Catalog[j].key
    ensures forall i, j :: 0 <= i < j < |Catalog| ==> Catalog[i].zone != Catalog[j].zone
  {
  }

  lemma CatalogSize()
    ensures |Catalog| == 10
  {
  }

  /** `BLACKLISTS[key]`, None for an unknown key. */
  function FindZone(key: string): (r: Option<Zone>)
    ensures r.Some? ==> r.value in Catalog && r.value.key == key
    ensures r.None? ==> forall z :: z in Catalog ==> z.key != key
  {
    FindZoneFrom(key, 0)
  }

  function FindZoneFrom(key: string, from: nat): (r: Option<Zone>)
    requires from <= |Catalog|
    decreases |Catalog| - from
    ensures r.Some? ==> exists i :: from <= i < |Catalog| && r.value == Catalog[i] && r.value.key == key
    ensures r.Some? ==> forall i :: from <= i < |Catalog| && Catalog[i] == r.value ==>
                          forall j :: from <= j < i ==> Catalog[j].key != key
    ensures r.None? ==> forall i :: from <= i < |Catalog| ==> Catalog[i].key != key
  {
    if from == |Catalog| then None
    else if Catalog[from].key == key then Some(Catalog[from])
    else FindZoneFrom(key, from + 1)
  }

  /** Every catalog key finds its own zone. */
  lemma {:induction false} FindCatalogZone(i: nat)
    requires i < |Catalog|
    ensures FindZone(Catalog[i].key) == Some(Catalog[i])
  {
    CatalogWellFormed();
    var r := FindZone(Catalog[i].key);
    assert r.Some?;
    var k :| 0 <= k < |Catalog| && r.value == Catalog[k] && r.value.key == Catalog[i].key;
    if k != i {
      assert false;
    }
  }

  /** The key `checkSURBLFree` asks for finds the SURBL zone. */
  lemma SurblZone()
    ensures FindZone("surbl") == Some(Catalog[2])
  {
    assert Catalog[2].key == "surbl";
    FindCatalogZone(2);
  }

  /** The key `checkURIBLFree` asks for finds the URIBL zone. */
  lemma UriblZone()
    ensures FindZone("uribl") == Some(Catalog[3])
  {
    assert Catalog[3].key == "uribl";
    FindCatalogZone(3);
  }

  /** The query name `${domain}.${zone}`. */
  function QueryName(domain: string, z: Zone): string {
    domain + "." + z.zone
  }

  /** For one domain, distinct zones give distinct query names: the ten lookups of
      one analysis never share a cache entry. */
  lemma QueryNamesDistinct(domain: string, i: nat, j: nat)
    requires i < |Catalog| && j < |Catalog| && i != j
    ensures QueryName(domain, Catalog[i]) != QueryName(domain, Catalog[j])
  {
    CatalogWellFormed();
    var qi, qj := QueryName(domain, Catalog[i]), QueryName(domain, Catalog[j]);
    assert qi[|domain| + 1..] == Catalog[i].zone;
    assert qj[|domain| + 1..] == Catalog[j].zone;
  }

  /** A cached query outcome. The source stores `{isListed: true, records, timestamp}`
      or `{isListed: false, error, timestamp}`. */
  datatype QueryResult =
    | Listed(records: seq<string>, timestamp: int)
    | NotListed(error: string, timestamp: int)

  /** The outcome a fresh lookup produces at time `now`. */
  function Outcome(l: Lookup, now: int): (r: QueryResult)
    ensures r.Listed? <==> l.Resolved?
    ensures l.Resolved? ==> r.records == l.addresses
    ensures l.Failed? ==> r == NotListed(l.message, now)
    ensures l.TimedOut? ==> r == NotListed(TimeoutMessage, now)
    ensures r.timestamp == now
  {
    match l
    case Resolved(addresses) => Listed(addresses, now)
    case Failed(message) => NotListed(message, now)
    case TimedOut => NotListed(TimeoutMessage, now)
  }

  /** An entry stamped at `e.timestamp` is still served at `now`. */
  predicate Fresh(e: QueryResult, now: int) {
    now - e.timestamp < CacheTtlMs
  }

  /** The cache has a live entry for `q` at `now`. */
  predicate Hit(entries: map<string, QueryResult>, q: string, now: int) {
    q in entries && Fresh(entries[q], now)
  }

  /** The result a query for `q` yields: the live cached entry, or a new lookup. */
  function Served(entries: map<string, QueryResult>, q: string, now: int, dns: Resolver): QueryResult {
    if Hit(entries, q, now) then entries[q] else Outcome(dns(q), now)
  }

  /** The cache after a query for `q`: unchanged on a hit, otherwise the new outcome
      is stored under `q`, replacing any expired entry. */
  function AfterQuery(entries: map<string, QueryResult>, q: string, now: int, dns: Resolver)
    : map<string, QueryResult>
  {
    if Hit(entries, q, now) then entries else entries[q := Outcome(dns(q), now)]
  }

  /** What a query returns as the source is written: on a hit it returns the
      `result` field of the cached value, which the stored values do not have. */
  function ServedAsWritten(entries: map<string, QueryResult>, q: string, now: int, dns: Resolver)
    : Option<QueryResult>
  {
    if Hit(entries, q, now) then None else Some(Outcome(dns(q), now))
  }

  /** After any query, the cache holds exactly what was served, and a repeat of the
      query while that result is younger than the lifetime is answered from the
      cache: same result, no new lookup (the second resolver is never consulted),
      no change to the cache. */
  lemma RepeatWithinTtlIsServedFromCache(entries: map<string, QueryResult>, q: string,
                                          t1: int, t2: int, dns1: Resolver, dns2: Resolver)
    requires t2 - Served(entries, q, t1, dns1).timestamp < CacheTtlMs
    ensures var after := AfterQuery(entries, q, t1, dns1);
            q in after && after[q] == Served(entries, q, t1, dns1) &&
            Served(after, q, t2, dns2) == Served(entries, q, t1, dns1) &&
            AfterQuery(after, q, t2, dns2) == after
  {
  }

  /** A miss stamps the stored result with the time of the query, so the window in
      which it is served runs from that query for the full lifetime. */
  lemma MissIsStampedNow(entries: map<string, QueryResult>, q: string, now: int, dns: Resolver)
    requires !Hit(entries, q, now)
    ensures Served(entries, q, now, dns).timestamp == now
    ensures AfterQuery(entries, q, now, dns) == entries[q := Served(entries, q, now, dns)]
  {
  }

  /** One per-zone check, as `checkBlacklist` reports it (timing left out). */
  datatype BlacklistCheck = BlacklistCheck(key: string, name: string, description: string,
                                           contact: string, isListed: bool,
                                           records: Option<seq<string>>, error: Option<string>)

  /** The report `checkBlacklist` builds from what `queryBlacklist` returned
      (`result?.isListed || false`, `result?.records || null`, `result?.error || null`). */
  function CheckFrom(z: Zone, r: Option<QueryResult>): (c: BlacklistCheck)
    ensures c.key == z.key && c.name == z.name && c.description == z.description && c.contact == z.contact
    ensures c.isListed <==> r.Some? && r.value.Listed?
    ensures c.records.Some? <==> c.isListed
    ensures c.isListed ==> c.records == Some(r.value.records)
    ensures c.error.Some? ==> !c.isListed && r.Some? && c.error == Some(r.value.error)
    ensures c.error.Some? ==> c.error.value != ""
    ensures r.Some? && r.value.NotListed? && r.value.error != "" ==> c.error == Some(r.value.error)
  {
    var listed := r.Some? && r.value.Listed?;
    BlacklistCheck(z.key, z.name, z.description, z.contact, listed,
                   if listed then Some(r.value.records) else None,
                   if r.Some? && r.value.NotListed? && r.value.error != "" then Some(r.value.error) else None)
  }

  /** Every failed or timed-out lookup is reported as "not listed", never as a fault,
      carrying the lookup's error message when it has one. */
  lemma {:induction false} FailureMeansNotListed(entries: map<string, QueryResult>, domain: string,
                                                 i: nat, now: int, dns: Resolver)
    requires i < |Catalog|
    requires !dns(QueryName(domain, Catalog[i])).Resolved?
    requires !Hit(entries, QueryName(domain, Catalog[i]), now)
    ensures !CheckFrom(Catalog[i], Some(Served(entries, QueryName(domain, Catalog[i]), now, dns))).isListed
    ensures dns(QueryName(domain, Catalog[i])).TimedOut? ==>
      CheckFrom(Catalog[i], Some(Served(entries, QueryName(domain, Catalog[i]), now, dns))).error
        == Some(TimeoutMessage)
    ensures dns(QueryName(domain, Catalog[i])).Failed? && dns(QueryName(domain, Catalog[i])).message != "" ==>
      CheckFrom(Catalog[i], Some(Served(entries, QueryName(domain, Catalog[i]), now, dns))).error
        == Some(dns(QueryName(domain, Catalog[i])).message)
  {
    var q := QueryName(domain, Catalog[i]);
    assert Served(entries, q, now, dns) == Outcome(dns(q), now);
  }

  /** As written, a query answered from the cache is reported as not listed, with
      neither records nor error, whatever the cached entry says. */
  lemma AsWrittenHitLosesTheEntry(entries: map<string, QueryResult>, q: string, now: int,
                                  dns: Resolver, z: Zone)
    requires Hit(entries, q, now)
    ensures CheckFrom(z, ServedAsWritten(entries, q, now, dns)) ==
            BlacklistCheck(z.key, z.name, z.description, z.contact, false, None, None)
  {
  }

  /** A concrete case: a listing cached one second earlier is reported as listed by
      the intended cache and as clean by the cache as written. */
  lemma AsWrittenCachedListingReportedClean()
    ensures var z := Catalog[0];
            var q := QueryName("example.com", z);
            var entries := map[q := Listed(["127.0.1.2"], 0)];
            var dns: Resolver := _ => TimedOut;
            !CheckFrom(z, ServedAsWritten(entries, q, 1000, dns)).isListed &&
            CheckFrom(z, Some(Served(entries, q, 1000, dns))).isListed
  {
  }

  /** With the intended cache, a hit reports exactly the cached entry. */
  lemma {:induction false} HitReportsCachedEntry(entries: map<string, QueryResult>, q: string, now: int,
                                                 dns: Resolver, z: Zone)
    requires Hit(entries, q, now)
    ensures CheckFrom(z, Some(Served(entries, q, now, dns))).isListed <==> entries[q].Listed?
    ensures entries[q].Listed? ==>
      CheckFrom(z, Some(Served(entries, q, now, dns))).records == Some(entries[q].records)
  {
    assert Served(entries, q, now, dns) == entries[q];
  }

  /** The checks of all ten catalog zones against the cache as it was before them. */
  function CatalogChecks(domain: string, entries: map<string, QueryResult>, now: int, dns: Resolver)
    : (cs: seq<BlacklistCheck>)
    ensures ErrorsOnlyWhenClean(cs)
  {
    seq(|Catalog|, i requires 0 <= i < |Catalog| =>
      CheckFrom(Catalog[i], Some(Served(entries, QueryName(domain, Catalog[i]), now, dns))))
  }

  /** The query names of the catalog zones for `domain`, in catalog order. */
  function CatalogNames(domain: string): (names: seq<string>)
    ensures |names| == |Catalog|
    ensures forall i :: 0 <= i < |Catalog| ==> names[i] == QueryName(domain, Catalog[i])
  {
    seq(|Catalog|, i requires 0 <= i < |Catalog| => QueryName(domain, Catalog[i]))
  }

  /** The cache after querying `names` in order. */
  function RefreshNames(entries: map<string, QueryResult>, names: seq<string>, now: int, dns: Resolver)
    : map<string, QueryResult>
    decreases |names|
  {
    if names == [] then entries
    else AfterQuery(RefreshNames(entries, names[..|names| - 1], now, dns), names[|names| - 1], now, dns)
  }

  /** The cache after querying the first `n` catalog zones in order. */
  function RefreshAll(entries: map<string, QueryResult>, domain: string, now: int, dns: Resolver, n: nat)
    : map<string, QueryResult>
    requires n <= |Catalog|
  {
    RefreshNames(entries, CatalogNames(domain)[..n], now, dns)
  }

  /** Querying `names` leaves every other cache entry as it was. */
  lemma {:induction false} RefreshElsewhere(entries: map<string, QueryResult>, names: seq<string>, now: int,
                                            dns: Resolver, q: string)
    requires q !in names
    ensures q in RefreshNames(entries, names, now, dns) <==> q in entries
    ensures q in entries ==> RefreshNames(entries, names, now, dns)[q] == entries[q]
    decreases |names|
  {
    if names != [] {
      var init := names[..|names| - 1];
      assert forall x :: x in init ==> x in names;
      RefreshElsewhere(entries, init, now, dns, q);
      AfterQueryKeeps(RefreshNames(entries, init, now, dns), names[|names| - 1], q, now, dns);
    }
  }

  /** When the names are distinct, the entry of each queried name holds what its
      query served, whatever the order of the others. */
  lemma {:induction false} RefreshServes(entries: map<string, QueryResult>, names: seq<string>, now: int,
                                         dns: Resolver, i: nat)
    requires i < |names|
    requires forall a, b :: 0 <= a < b < |names| ==> names[a] != names[b]
    ensures names[i] in RefreshNames(entries, names, now, dns)
    ensures RefreshNames(entries, names, now, dns)[names[i]] == Served(entries, names[i], now, dns)
    decreases |names|
  {
    var n := |names| - 1;
    var init := names[..n];
    var before := RefreshNames(entries, init, now, dns);
    if i == n {
      assert names[i] !in init by {
        forall a | 0 <= a < n ensures init[a] != names[i] {
          assert init[a] == names[a];
        }
      }
      RefreshElsewhere(entries, init, now, dns, names[i]);
      assert Served(before, names[i], now, dns) == Served(entries, names[i], now, dns);
      AfterQueryStores(before, names[i], now, dns);
    } else {
      assert init[i] == names[i];
      RefreshServes(entries, init, now, dns, i);
      AfterQueryKeeps(before, names[n], names[i], now, dns);
    }
  }

  /** A query leaves the cache holding what it served. */
  lemma AfterQueryStores(entries: map<string, QueryResult>, q: string, now: int, dns: Resolver)
    ensures q in AfterQuery(entries, q, now, dns)
    ensures AfterQuery(entries, q, now, dns)[q] == Served(entries, q, now, dns)
  {
  }

  /** A query leaves every other entry as it was. */
  lemma AfterQueryKeeps(entries: map<string, QueryResult>, q: string, p: string, now: int, dns: Resolver)
    requires p != q
    ensures p in AfterQuery(entries, q, now, dns) <==> p in entries
    ensures p in entries ==> AfterQuery(entries, q, now, dns)[p] == entries[p]
  {
  }

  lemma CatalogNamesDistinct(domain: string)
    ensures forall a, b :: 0 <= a < b < |Catalog| ==> CatalogNames(domain)[a] != CatalogNames(domain)[b]
  {
    forall a, b | 0 <= a < b < |Catalog| ensures CatalogNames(domain)[a] != CatalogNames(domain)[b] {
      QueryNamesDistinct(domain, a, b);
    }
  }

  /** After querying the first `n` catalog zones, the entry of each of them holds
      what its query served; which entries it holds does not depend on the order
      of the queries. */
  lemma RefreshAllServes(entries: map<string, QueryResult>, domain: string, now: int,
                         dns: Resolver, n: nat, i: nat)
    requires i < n <= |Catalog|
    ensures var q := QueryName(domain, Catalog[i]);
            q in RefreshAll(entries, domain, now, dns, n) &&
            RefreshAll(entries, domain, now, dns, n)[q] == Served(entries, q, now, dns)
  {
    var names := CatalogNames(domain)[..n];
    CatalogNamesDistinct(domain);
    assert names[i] == QueryName(domain, Catalog[i]);
    RefreshServes(entries, names, now, dns, i);
  }

  /** Querying zone `i` after zones `0..i-1` is served as if from the cache before
      them, and moves the cache one step further along `RefreshAll`. */
  lemma QueryStep(before: map<string, QueryResult>, domain: string, now: int, dns: Resolver, i: nat)
    requires i < |Catalog|
    ensures var q := QueryName(domain, Catalog[i]);
            var cur := RefreshAll(before, domain, now, dns, i);
            Served(cur, q, now, dns) == Served(before, q, now, dns) &&
            AfterQuery(cur, q, now, dns) == RefreshAll(before, domain, now, dns, i + 1) &&
            CheckFrom(Catalog[i], Some(Served(cur, q, now, dns))) == CatalogChecks(domain, before, now, dns)[i]
  {
    var all := CatalogNames(domain);
    CatalogNamesDistinct(domain);
    NamesStep(before, all, now, dns, i);
    assert RefreshAll(before, domain, now, dns, i) == RefreshNames(before, all[..i], now, dns);
    assert RefreshAll(before, domain, now, dns, i + 1) == RefreshNames(before, all[..i + 1], now, dns);
    assert all[i] == QueryName(domain, Catalog[i]);
  }

  /** Querying the `i`-th of distinct names after the ones before it is served as
      if from the starting cache, and extends the refresh by one name. */
  lemma NamesStep(before: map<string, QueryResult>, names: seq<string>, now: int, dns: Resolver, i: nat)
    requires i < |names|
    requires forall a, b :: 0 <= a < b < |names| ==> names[a] != names[b]
    ensures var cur := RefreshNames(before, names[..i], now, dns);
            Served(cur, names[i], now, dns) == Served(before, names[i], now, dns) &&
            AfterQuery(cur, names[i], now, dns) == RefreshNames(before, names[..i + 1], now, dns)
  {
    var q := names[i];
    assert q !in names[..i] by {
      forall a | 0 <= a < i ensures names[..i][a] != q {
        assert names[..i][a] == names[a];
      }
    }
    RefreshElsewhere(before, names[..i], now, dns, q);
    assert names[..i + 1][..i] == names[..i];
  }

  /** `checkSpamHausFree`: the legacy verdict over the DBL and ZEN zones. */
  datatype SpamHausVerdict = SpamHausVerdict(isListed: bool, reason: Option<string>,
                                             dbl: BlacklistCheck, zen: BlacklistCheck)

  /** `checkSURBLFree` / `checkURIBLFree`: the verdict of a single-zone service. */
  datatype ServiceVerdict = ServiceVerdict(spamHouse: string, isListed: bool, reason: Option<string>,
                                           details: BlacklistCheck)

  /** Verdict of a legacy per-service summary (`details.spamhaus`, `.surbl`, `.uribl`). */
  datatype LegacyVerdict = LegacyVerdict(isListed: bool, reason: Option<string>)

  /** The reputation summary of `checkEmailReputationFree` (timing fields left out). */
  datatype Reputation = Reputation(
    domain: string,
    isListed: bool,
    flaggedCount: nat,
    cleanCount: nat,
    totalChecked: nat,
    errorCount: nat,
    flagged: seq<BlacklistCheck>,
    clean: seq<BlacklistCheck>,
    errors: seq<BlacklistCheck>,
    spamhaus: LegacyVerdict,
    surbl: LegacyVerdict,
    uribl: LegacyVerdict,
    status: string,
    confidence: Ratio)

  predicate IsFlagged(c: BlacklistCheck) { c.isListed }
  predicate IsClean(c: BlacklistCheck) { !c.isListed }
  predicate HasError(c: BlacklistCheck) { c.error.Some? }

  predicate IsSpamhausKey(c: BlacklistCheck) { Contains(c.key, "spamhaus") }
  predicate IsSurblKey(c: BlacklistCheck) { c.key == "surbl" }
  predicate IsUriblKey(c: BlacklistCheck) { c.key == "uribl" }

  /** Check `k` is the first of `flagged` that `matches` accepts. */
  predicate FirstMatchAt(flagged: seq<BlacklistCheck>, matches: BlacklistCheck -> bool, k: int) {
    0 <= k < |flagged| && matches(flagged[k]) && forall j :: 0 <= j < k ==> !matches(flagged[j])
  }

  /** The reason a check gives: its description, none when that is empty. */
  function ReasonOf(c: BlacklistCheck): Option<string> {
    if c.description != "" then Some(c.description) else None
  }

  /** `flagged.some(matches)` with the description of `flagged.find(matches)` as
      reason; an empty description is falsy, so `|| null` turns it into no reason. */
  function LegacyVerdictOf(flagged: seq<BlacklistCheck>, matches: BlacklistCheck -> bool): (v: LegacyVerdict)
    ensures v.isListed <==> exists c :: c in flagged && matches(c)
    ensures !v.isListed ==> v.reason.None?
    ensures v.isListed ==>
              exists k :: FirstMatchAt(flagged, matches, k) && v.reason == ReasonOf(flagged[k])
  {
    var hits := Filter(flagged, matches);
    FilterMembers(flagged, matches);
    if |hits| > 0 then
      assert hits[0] in hits;
      FilterHead(flagged, matches);
      LegacyVerdict(true, ReasonOf(hits[0]))
    else
      LegacyVerdict(false, None)
  }

  /** Every check of the batch carries a consistent error field (only a clean zone
      has one): true of every check that `CheckFrom` builds. */
  predicate ErrorsOnlyWhenClean(cs: seq<BlacklistCheck>) {
    forall c :: c in cs ==> c.error.Some? ==> !c.isListed
  }

  /** The summary of a batch of per-zone checks: flagged and clean partition the
      batch, the counts agree, and the status and confidence follow the flagged count. */
  function Summarize(domain: string, cs: seq<BlacklistCheck>): (r: Reputation)
    requires ErrorsOnlyWhenClean(cs)
    ensures r.totalChecked == |cs|
    ensures r.flaggedCount == |r.flagged| && r.cleanCount == |r.clean|
    ensures r.flaggedCount + r.cleanCount == r.totalChecked
    ensures multiset(r.flagged) + multiset(r.clean) == multiset(cs)
    ensures r.flagged == Filter(cs, IsFlagged) && r.clean == Filter(cs, IsClean)
    ensures r.errors == Filter(cs, HasError) && r.errorCount == |r.errors|
    ensures forall c :: c in r.errors <==> c in cs && c.error.Some?
    ensures r.spamhaus == LegacyVerdictOf(r.flagged, IsSpamhausKey)
    ensures r.surbl == LegacyVerdictOf(r.flagged, IsSurblKey)
    ensures r.uribl == LegacyVerdictOf(r.flagged, IsUriblKey)
    ensures forall c :: c in r.flagged ==> c.isListed
    ensures forall c :: c in r.clean ==> !c.isListed
    ensures forall c :: c in cs ==> (c in r.flagged <==> c.isListed)
    ensures r.errorCount <= r.cleanCount
    ensures r.isListed <==> r.flaggedCount > 0
    ensures r.status == "FLAGGED" <==> r.isListed
    ensures r.status == "CLEAN" <==> !r.isListed
    ensures r.confidence == (if r.flaggedCount > 0 then Ratio(r.flaggedCount, r.totalChecked) else Ratio(1, 1))
    ensures r.confidence.num <= r.confidence.den
  {
    var flagged := Filter(cs, IsFlagged);
    var clean := Filter(cs, IsClean);
    var errors := Filter(cs, HasError);
    FilterPartition(cs, IsFlagged, IsClean);
    FilterMembers(cs, IsFlagged);
    FilterMembers(cs, IsClean);
    FilterMembers(cs, HasError);
    ErrorsAreCleanWhenConsistent(cs);
    var listed := |flagged| > 0;
    Reputation(
      domain, listed, |flagged|, |clean|, |cs|, |errors|, flagged, clean, errors,
      LegacyVerdictOf(flagged, IsSpamhausKey),
      LegacyVerdictOf(flagged, IsSurblKey),
      LegacyVerdictOf(flagged, IsUriblKey),
      if listed then "FLAGGED" else "CLEAN",
      if listed then Ratio(|flagged|, |cs|) else Ratio(1, 1))
  }

  lemma {:induction false} ErrorsAreCleanWhenConsistent(cs: seq<BlacklistCheck>)
    requires ErrorsOnlyWhenClean(cs)
    ensures |Filter(cs, HasError)| <= |Filter(cs, IsClean)|
  {
    if cs != [] {
      assert cs[0] in cs;
      assert ErrorsOnlyWhenClean(cs[1..]) by {
        forall c | c in cs[1..] ensures c.error.Some? ==> !c.isListed {
          assert c in cs;
        }
      }
      ErrorsAreCleanWhenConsistent(cs[1..]);
    }
  }

  /** A domain listed on exactly one zone of the catalog: one flagged, nine clean,
      confidence one tenth. */
  lemma {:induction false} OneListingOfTen(domain: string, cs: seq<BlacklistCheck>, k: nat)
    requires |cs| == |Catalog| && ErrorsOnlyWhenClean(cs)
    requires k < |cs| && cs[k].isListed
    requires forall i :: 0 <= i < |cs| && i != k ==> !cs[i].isListed
    ensures Summarize(domain, cs).flaggedCount == 1
    ensures Summarize(domain, cs).cleanCount == 9
    ensures Summarize(domain, cs).confidence == Ratio(1, 10)
    ensures Summarize(domain, cs).status == "FLAGGED"
  {
    CatalogSize();
    FlaggedExactlyOne(cs, k);
  }

  lemma {:induction false} FlaggedExactlyOne(cs: seq<BlacklistCheck>, k: nat)
    requires k < |cs| && cs[k].isListed
    requires forall i :: 0 <= i < |cs| && i != k ==> !cs[i].isListed
    ensures |Filter(cs, IsFlagged)| == 1
    decreases |cs|
  {
    if k == 0 {
      NoneFlagged(cs[1..]);
    } else {
      assert !IsFlagged(cs[0]);
      FlaggedExactlyOne(cs[1..], k - 1);
    }
  }

  lemma {:induction false} NoneFlagged(cs: seq<BlacklistCheck>)
    requires forall i :: 0 <= i < |cs| ==> !cs[i].isListed
    ensures Filter(cs, IsFlagged) == []
  {
    if cs != [] {
      NoneFlagged(cs[1..]);
    }
  }

  /** The process-wide cache of blacklist lookups (`dnsCache`), with the operations
      that read and overwrite it. */
  class BlacklistChecker {
    var entries: map<string, QueryResult>

    constructor ()
      ensures entries == map[]
    {
      entries := map[];
    }

    /** `queryBlacklist`, with the cache hit returning the cached result. */
    method QueryBlacklist(domain: string, key: string, now: int, dns: Resolver) returns (r: Option<QueryResult>)
      modifies this
      ensures FindZone(key).None? ==> r.None? && entries == old(entries)
      ensures FindZone(key).Some? ==>
        var q := QueryName(domain, FindZone(key).value);
        r == Some(Served(old(entries), q, now, dns)) && entries == AfterQuery(old(entries), q, now, dns)
    {
      var zone := FindZone(key);
      if zone.None? {
        return None;
      }
      var q := QueryName(domain, zone.value);
      if q in entries && now - entries[q].timestamp < CacheTtlMs {
        return Some(entries[q]);
      }
      var result := Outcome(dns(q), now);
      entries := entries[q := result];
      r := Some(result);
    }

    /** `checkBlacklist`; None where the source throws on an unknown key. */
    method CheckBlacklist(domain: string, key: string, now: int, dns: Resolver) returns (c: Option<BlacklistCheck>)
      modifies this
      ensures FindZone(key).None? ==> c.None? && entries == old(entries)
      ensures FindZone(key).Some? ==>
        var z := FindZone(key).value;
        var q := QueryName(domain, z);
        c == Some(CheckFrom(z, Some(Served(old(entries), q, now, dns)))) &&
        entries == AfterQuery(old(entries), q, now, dns)
    {
      var r := QueryBlacklist(domain, key, now, dns);
      var zone := FindZone(key);
      if zone.None? {
        return None;
      }
      c := Some(CheckFrom(zone.value, r));
    }

    /** `checkEmailReputationFree`: all ten zones, in catalog order, then the summary. */
    method CheckEmailReputation(domain: string, now: int, dns: Resolver) returns (rep: Reputation)
      modifies this
      ensures rep == Summarize(domain, CatalogChecks(domain, old(entries), now, dns))
      ensures entries == RefreshAll(old(entries), domain, now, dns, |Catalog|)
      ensures rep.totalChecked == 10 && rep.flaggedCount + rep.cleanCount == 10
    {
      CatalogSize();
      var results := CheckCatalog(domain, now, dns);
      rep := Summarize(domain, results);
    }

    /** The ten `checkBlacklist` calls, one zone after another. */
    method CheckCatalog(domain: string, now: int, dns: Resolver) returns (results: seq<BlacklistCheck>)
      modifies this
      ensures results == CatalogChecks(domain, old(entries), now, dns)
      ensures entries == RefreshAll(old(entries), domain, now, dns, |Catalog|)
    {
      ghost var before := entries;
      ghost var all := CatalogChecks(domain, before, now, dns);
      results := [];
      var i := 0;
      while i < |Catalog|
        invariant 0 <= i <= |Catalog|
        invariant results == all[..i]
        invariant entries == RefreshAll(before, domain, now, dns, i)
      {
        var c := CheckZone(domain, now, dns, before, i);
        assert all[..i + 1] == all[..i] + [all[i]];
        results := results + [c];
        i := i + 1;
      }
      assert all[..i] == all;
    }

    /** The `checkBlacklist` call for catalog zone `i`, after zones `0..i-1`. */
    method CheckZone(domain: string, now: int, dns: Resolver, ghost before: map<string, QueryResult>, i: nat)
      returns (c: BlacklistCheck)
      requires i < |Catalog| && entries == RefreshAll(before, domain, now, dns, i)
      modifies this
      ensures c == CatalogChecks(domain, before, now, dns)[i]
      ensures entries == RefreshAll(before, domain, now, dns, i + 1)
    {
      FindCatalogZone(i);
      QueryStep(before, domain, now, dns, i);
      var r := CheckBlacklist(domain, Catalog[i].key, now, dns);
      c := r.value;
    }

    /** `checkSpamHausFree`: the DBL zone, then the ZEN zone. */
    method CheckSpamHaus(domain: string, now: int, dns: Resolver) returns (v: SpamHausVerdict)
      modifies this
      ensures var cs := CatalogChecks(domain, old(entries), now, dns);
              v.dbl == cs[0] && v.zen == cs[1] &&
              v.isListed == (cs[0].isListed || cs[1].isListed) &&
              v.reason == (if cs[0].isListed then Some("Listed in DBL")
                           else if cs[1].isListed then Some("Listed in ZEN") else None)
      ensures entries == RefreshAll(old(entries), domain, now, dns, 2)
    {
      CatalogSize();
      ghost var before := entries;
      var dbl := CheckZone(domain, now, dns, before, 0);
      var zen := CheckZone(domain, now, dns, before, 1);
      var reason := if dbl.isListed then Some("Listed in DBL")
                    else if zen.isListed then Some("Listed in ZEN") else None;
      v := SpamHausVerdict(dbl.isListed || zen.isListed, reason, dbl, zen);
    }

    /** `checkSURBLFree`: the SURBL zone on its own. */
    method CheckSurbl(domain: string, now: int, dns: Resolver) returns (v: ServiceVerdict)
      modifies this
      ensures var q := QueryName(domain, Catalog[2]);
              var c := CheckFrom(Catalog[2], Some(Served(old(entries), q, now, dns)));
              v == ServiceVerdict("SURBL", c.isListed, if c.isListed then Some("Listed in SURBL") else None, c) &&
              entries == AfterQuery(old(entries), q, now, dns)
    {
      SurblZone();
      var r := CheckBlacklist(domain, "surbl", now, dns);
      var c := r.value;
      v := ServiceVerdict("SURBL", c.isListed, if c.isListed then Some("Listed in SURBL") else None, c);
    }

    /** `checkURIBLFree`: the URIBL zone on its own. */
    method CheckUribl(domain: string, now: int, dns: Resolver) returns (v: ServiceVerdict)
      modifies this
      ensures var q := QueryName(domain, Catalog[3]);
              var c := CheckFrom(Catalog[3], Some(Served(old(entries), q, now, dns)));
              v == ServiceVerdict("URIBL", c.isListed, if c.isListed then Some("Listed in URIBL") else None, c) &&
              entries == AfterQuery(old(entries), q, now, dns)
    {
      UriblZone();
      var r := CheckBlacklist(domain, "uribl", now, dns);
      var c := r.value;
      v := ServiceVerdict("URIBL", c.isListed, if c.isListed then Some("Listed in URIBL") else None, c);
    }
  }
}
