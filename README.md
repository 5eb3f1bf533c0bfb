# vitmail-c domain email-health engine, modelled in Dafny

This project models the domain email-health engine of vitmail-c: the code that
takes DNS answers for a domain and turns them into a verdict on its email set-up.
The model covers these parts:

- **DNS blacklist checker** (`src/lib/domain-health/free-apis.js`):
  - a catalog of ten DNSBL zones, each queried under `<domain>.<zone>` as in section 3 of RFC 5782;
  - a process-wide cache of lookup outcomes that lives for 300000 ms;
  - the per-zone check, the reputation summary and the legacy SpamHaus/SURBL/URIBL verdicts.

  The cache is the class `Blacklist.BlacklistChecker`, which holds a `map`. The current time is a parameter.
- **Live DNS-record interpretation** (`checkDNSRecordsFree`): the SPF, DKIM and DMARC record filters, the DMARC tag parser and the MX provider identification.
- **Record analyzers, recommendations and spam-house aggregator** (`src/lib/domain-health/mxtoolbox-api.js`):
  - SPF qualifiers, as in section 4.6.2 of RFC 7208;
  - the DKIM key-size estimate for the `p=` tag of section 3.6.1 of RFC 6376;
  - DMARC tags, as in section 6.3 of RFC 7489;
  - the MX sort and its checks, and the second provider identifier;
  - the recommendation generator and the nine-house spam check.
- **Endpoint** (`src/pages/api/check-domain.js`): request guards, the domain-format gate, the live-data report and its health score.
- **Middleware** (`src/middleware.js`): the host-based rewrite decision.

Every DNS answer is an input value:

- `Dns.Resolver` maps a query name to an A-record outcome: `Resolved(addresses)`, `Failed(message)` or `TimedOut`.
- `Dns.TxtZone` maps an owner name to its TXT records, or None when the lookup fails.
- MX answers are a list of `(priority, exchange)` pairs.

Loops in the source become Dafny loops, proved against specification functions:

- the SPF, DKIM and DMARC analyzers;
- `analyzeMXRecords` and `identifyEmailProvider`;
- the recommendation pushes;
- the step-by-step health score;
- the MX sort, an in-place insertion sort on an array.

Provider confidences are integers in hundredths (70, 90, 95). Ratio-valued confidences are exact fractions (`Text.Ratio`).

Modules, one per file: `Text` (string and sequence helpers), `Dns`, `Blacklist`,
`Providers`, `LiveRecords`, `RecordChecks`, `MxChecks`, `Toolbox`, `SpamHouses`,
`CheckDomain`, `Middleware`.

In these places the code departs from its evidently intended behaviour or from the standard it reads; the model follows the code:

- **Free-path confidence.** For one flagged zone of ten, the confidence is `flagged / total` (1/10), where the spam-house path reports the clean share (`SpamHouses.Summarize`), which would be 0.9. `Blacklist.OneListingOfTen` proves the code's value.
- **DKIM validity.** A DKIM record is valid when it contains `v=DKIM1` anywhere, although section 3.6.1 of RFC 6376 requires `v=` to be the first tag when it is present.
- **MX validity on the analyzer path.** `mx.isValid` is never set to true, even when MX records are found.
- **One-character labels.** The domain-format regular expression refuses them (`x.com` is rejected), although section 2.1 of RFC 1123 allows them.
- **DMARC `p=` search.** The search is not anchored at a tag boundary of the tag-list grammar in section 6.4 of RFC 7489, so a subdomain policy `sp=` written before `p=` is read as the policy (`LiveRecords.SubdomainPolicyIsReadFirst`).
- **Repeat queries within the lifetime.** As written, a cache hit is reported as not listed, whatever was cached (see Findings). The class `Blacklist.BlacklistChecker` uses the corrected cache, which serves the cached entry itself; the code as written is modelled by `Blacklist.ServedAsWritten`.

## Model

| member | source | states |
|---|---|---|
| `Blacklist.CatalogWellFormed` | src/lib/domain-health/free-apis.js:7-78 | the catalog has ten zones with pairwise distinct keys and zone suffixes |
| `Blacklist.FindZone` | src/lib/domain-health/free-apis.js:86-87 | a key finds its catalog entry; an unknown key finds nothing, so the query returns null |
| `Blacklist.FindCatalogZone` | src/lib/domain-health/free-apis.js:86-87 | every catalog key finds exactly its own zone |
| `Blacklist.QueryNamesDistinct` | src/lib/domain-health/free-apis.js:89 | the ten query names of one domain are pairwise distinct, so the zones of one analysis never share a cache entry |
| `Blacklist.Outcome` | src/lib/domain-health/free-apis.js:105-126 | a lookup gives listed-with-its-addresses exactly when it resolves; a failure gives not-listed with the lookup's own error message, a timeout not-listed with "DNS query timeout"; the outcome is stamped with the query time |
| `Blacklist.RepeatWithinTtlIsServedFromCache` | src/lib/domain-health/free-apis.js:92-126 | after any query the cache holds what was served; a repeat within 300000 ms of that stamp returns the same result without consulting DNS and leaves the cache unchanged |
| `Blacklist.MissIsStampedNow` | src/lib/domain-health/free-apis.js:105-126 | a miss, including an expired entry, stores the new outcome under the query name, overwriting the old entry and stamped now; negative results get the same lifetime |
| `Blacklist.CheckFrom` | src/lib/domain-health/free-apis.js:135-144 | the per-zone report copies the zone's fields; it is listed exactly when the query result is listed and has records exactly when listed; a negative result's non-empty error message is reported, and any reported error is that non-empty message of a negative result |
| `Blacklist.FailureMeansNotListed` | src/lib/domain-health/free-apis.js:118-142 | on a cache miss, a failed or timed-out lookup is reported as not listed, never as a fault; a timeout carries the "DNS query timeout" message, and a failure its own non-empty error message |
| `Blacklist.AsWrittenHitLosesTheEntry` | src/lib/domain-health/free-apis.js:92-96 | as written, every cache hit is reported as not listed, with neither records nor error, whatever was cached |
| `Blacklist.AsWrittenCachedListingReportedClean` | src/lib/domain-health/free-apis.js:92-96 | concrete case: a listing cached one second earlier is reported clean as written and listed by the intended cache |
| `Blacklist.HitReportsCachedEntry` | src/lib/domain-health/free-apis.js:92-96 | with the intended cache, a hit reports the cached entry's listing and records |
| `Blacklist.CatalogChecks` | src/lib/domain-health/free-apis.js:391-396 | the ten per-zone checks; any error field appears only on a clean check |
| `Blacklist.CatalogNamesDistinct` | src/lib/domain-health/free-apis.js:89 | the ten zones of one analysis query ten pairwise distinct names |
| `Blacklist.RefreshElsewhere` | src/lib/domain-health/free-apis.js:93-126 | querying a list of names leaves every other cache entry as it was |
| `Blacklist.RefreshServes` | src/lib/domain-health/free-apis.js:93-126 | after querying distinct names, in any order, each name's entry holds what its own query served from the starting cache |
| `Blacklist.RefreshAllServes` | src/lib/domain-health/free-apis.js:394-396 | after the zone checks, each zone's entry holds what its query served, so the parallel order does not matter |
| `Blacklist.QueryStep` | src/lib/domain-health/free-apis.js:394-396 | zone i, checked after zones 0..i-1, is served as if from the cache before the batch, and moves the cache one step along |
| `Blacklist.LegacyVerdictOf` | src/lib/domain-health/free-apis.js:417-430 | a legacy verdict is listed exactly when some flagged check matches; its reason is the description of the first matching flagged check, or none when that description is empty; an unlisted verdict has no reason |
| `Blacklist.Summarize` | src/lib/domain-health/free-apis.js:398-466 | flagged and clean partition the checks as a multiset, and each check is flagged exactly when listed; counts add up to the total; flagged and clean keep the checks' order; the errors are exactly the checks with an error, in order, and the error count is their number, at most the clean count; the SpamHaus, SURBL and URIBL verdicts are judged over the flagged checks; isListed, FLAGGED and flaggedCount > 0 coincide; confidence is flagged/total, or 1 when nothing is flagged, and never exceeds 1 |
| `Blacklist.ErrorsAreCleanWhenConsistent` | src/lib/domain-health/free-apis.js:399-406 | when only clean checks carry errors, the error count is at most the clean count |
| `Blacklist.OneListingOfTen` | src/lib/domain-health/free-apis.js:399-465 | a domain listed on exactly one of the ten zones gives 1 flagged, 9 clean, status FLAGGED and confidence 1/10 |
| `Blacklist.BlacklistChecker.constructor` | src/lib/domain-health/free-apis.js:81 | the cache starts empty |
| `Blacklist.BlacklistChecker.QueryBlacklist` | src/lib/domain-health/free-apis.js:85-128 | an unknown key returns nothing and leaves the cache alone; otherwise it returns the served result and the cache becomes the cache after that query |
| `Blacklist.BlacklistChecker.CheckBlacklist` | src/lib/domain-health/free-apis.js:131-145 | the per-zone report of the served result, with the cache updated by the query |
| `Blacklist.BlacklistChecker.CheckEmailReputation` | src/lib/domain-health/free-apis.js:386-467 | the summary of the ten checks against the cache before the call; ten checked, flagged plus clean is ten; the cache ends refreshed for all ten zones |
| `Blacklist.BlacklistChecker.CheckCatalog` | src/lib/domain-health/free-apis.js:391-396 | the loop over the catalog returns exactly the ten specified checks and leaves the cache refreshed for all zones |
| `Blacklist.BlacklistChecker.CheckZone` | src/lib/domain-health/free-apis.js:395 | one zone's check within the batch equals its specified check and extends the refresh by one zone |
| `Blacklist.BlacklistChecker.CheckSpamHaus` | src/lib/domain-health/free-apis.js:148-162 | the verdict over the DBL and ZEN checks: listed when either is, reason DBL first, then ZEN |
| `Blacklist.BlacklistChecker.CheckSurbl` | src/lib/domain-health/free-apis.js:164-173 | the SURBL zone alone: listed with reason "Listed in SURBL" exactly when its check is listed |
| `Blacklist.BlacklistChecker.CheckUribl` | src/lib/domain-health/free-apis.js:175-184 | the URIBL zone alone: listed with reason "Listed in URIBL" exactly when its check is listed |
| `Text.ReplaceFirst` | src/middleware.js:36 | only the first occurrence of the pattern is replaced; with no occurrence the string is unchanged |
| `Text.Capture` | src/lib/domain-health/mxtoolbox-api.js:189-192 | a tag capture exists exactly when the tag is followed by a class character somewhere; the captured value is non-empty and entirely in the class |
| `Text.FilterPartition` | src/lib/domain-health/free-apis.js:399-400 | the kept and the dropped elements partition the input, as a multiset and in length |
| `Text.FilterMembers` | src/lib/domain-health/free-apis.js:399-400 | the filtered list holds exactly the input elements that pass |
| `Providers.FirstProvider` | src/lib/domain-health/free-apis.js:297-318 | the first table entry, in table order, with a pattern in the host; none before it matches; None when no entry matches |
| `Providers.FindProvider` | src/lib/domain-health/free-apis.js:297-318 | the nested provider and pattern search with early exit returns exactly the first matching entry |
| `LiveRecords.PercentTag` | src/lib/domain-health/free-apis.js:214-219 | a percentage is read exactly when `pct=` is followed by a digit; its value is the base-10 number the captured digits spell, below 10 to the number of digits |
| `LiveRecords.PercentTagReads` | src/lib/domain-health/free-apis.js:214-219 | with no `p` before it, `pct=` followed by a digit run reads that run as a base-10 number |
| `LiveRecords.PercentOfPartialPolicy` | src/lib/domain-health/free-apis.js:210-222 | the record `v=DMARC1; pct=50; p=reject` is parsed with percentage 50 |
| `Text.DecimalValueIsPositional` | src/lib/domain-health/free-apis.js:219 | the left-to-right digit fold equals the positional base-10 value of the digits and stays below 10 to the number of digits |
| `LiveRecords.ParseDmarcPolicy` | src/lib/domain-health/free-apis.js:210-222 | an empty record gives policy none with null percentage and rua; otherwise the policy is the lower-cased first `p=` value (default none), a percentage is always given (the `pct=` value when there is one, else 100), and rua is the first `rua=` value |
| `LiveRecords.SubdomainPolicyIsReadFirst` | src/lib/domain-health/free-apis.js:213 | an `sp=` tag whose `p` comes before any other `p` decides the policy |
| `LiveRecords.LiveProvidersPositive` | src/lib/domain-health/free-apis.js:232-288 | every entry of the live provider table has a positive confidence |
| `LiveRecords.DetailFor` | src/lib/domain-health/free-apis.js:293-327 | each record's detail keeps its priority and exchange and names the first matching provider with its confidence, or Unknown with 0 |
| `LiveRecords.BestAfterIsMaximal` | src/lib/domain-health/free-apis.js:290-306 | the best match has at least the confidence of every record's detail |
| `LiveRecords.BestAfterIsFound` | src/lib/domain-health/free-apis.js:290-306 | confidence 0 means Unknown; otherwise the best match is the provider of the earliest record that reaches it, since every earlier record is strictly lower |
| `LiveRecords.AnalyzeRecord` | src/lib/domain-health/free-apis.js:293-327 | one record's provider search yields its detail and moves the best match past it |
| `LiveRecords.AnalyzeMxRecords` | src/lib/domain-health/free-apis.js:227-336 | no records give Unknown/0 with no details; otherwise there is exactly one detail per record, in order, and the result is the best match |
| `LiveRecords.SpfSummaryOf` | src/lib/domain-health/free-apis.js:341-347 | count and records are the first strings of the `v=spf1` records; exists iff count > 0; hasMultiple and the warning iff count > 1; every record starts with `v=spf1` |
| `LiveRecords.DkimSummaryOf` | src/lib/domain-health/free-apis.js:348-353 | count and records are those of the records mentioning `domainkey` case-insensitively; exists iff count > 0; the warning iff there are none |
| `LiveRecords.DmarcSummaryOf` | src/lib/domain-health/free-apis.js:354-363 | count and records are those of the `v=DMARC1` records at `_dmarc`; with none, policy none and null percentage and rua; otherwise the fields parse the first record; warning for none present or policy none |
| `LiveRecords.CheckDnsRecords` | src/lib/domain-health/free-apis.js:187-373 | SPF and DKIM come from the domain's TXT records and DMARC from `_dmarc.<domain>`, with a failed lookup read as none; MX keeps the answer and one detail per record; with records, provider, provider name and confidence are those of the best match; without, Unknown/0 with no provider name |
| `RecordChecks.AnalyzeSpf` | src/lib/domain-health/mxtoolbox-api.js:134-162 | exists, count, records and hasMultiple follow the records; valid iff some record has `-all` or `~all`; issues and recommendations are the specified lists |
| `RecordChecks.JudgeSpfRecord` | src/lib/domain-health/mxtoolbox-api.js:136-150 | one record adds the `+all` issue, then the `?all` issue, when present; it enforces on `-all` or `~all` |
| `RecordChecks.PlusAllIssueCount` | src/lib/domain-health/mxtoolbox-api.js:138-140 | the `+all` issues number exactly the records containing `+all` |
| `RecordChecks.NeutralIssueCount` | src/lib/domain-health/mxtoolbox-api.js:147-149 | the `?all` issues number exactly the records containing `?all` |
| `RecordChecks.IssueCountFollows` | src/lib/domain-health/mxtoolbox-api.js:136-150 | if each record adds one copy of an issue exactly when it satisfies a test, the issue count is the number of records that pass |
| `RecordChecks.QualifierIssuesAreQualifierProblems` | src/lib/domain-health/mxtoolbox-api.js:136-150 | the per-record loop produces only `+all` and `?all` issues |
| `RecordChecks.MultipleSpfIssueIff` | src/lib/domain-health/mxtoolbox-api.js:152-154 | the multiple-record issue is present iff there is more than one SPF record |
| `RecordChecks.QualifierRecommendationOnlyWhenQuiet` | src/lib/domain-health/mxtoolbox-api.js:156-158 | the add-a-qualifier recommendation appears iff records exist, none enforces and there are no issues; then there is one record, with neither `+all` nor `?all` |
| `RecordChecks.NoSpfRecordOutcome` | src/lib/domain-health/mxtoolbox-api.js:159-162 | no SPF record gives exactly one issue and one recommendation, and is not valid |
| `RecordChecks.KeyBitsThreshold` | src/lib/domain-health/mxtoolbox-api.js:174-175 | the estimate `floor(n*3/4)*8` is below 1024 bits iff the payload has at most 170 characters |
| `RecordChecks.AnalyzeDkim` | src/lib/domain-health/mxtoolbox-api.js:164-184 | valid iff some record contains `v=DKIM1`; issues are one short-key issue per short record, or the missing-record issue; the recommendation appears only without records |
| `RecordChecks.JudgeDkimRecord` | src/lib/domain-health/mxtoolbox-api.js:166-179 | one record declares DKIM iff it contains `v=DKIM1`; it is short iff it names `k=rsa` and its `k=rsa; p=` payload estimates under 1024 bits |
| `RecordChecks.KeyIssuesCount` | src/lib/domain-health/mxtoolbox-api.js:166-179 | the key issues are all short-key issues, one per short-keyed record |
| `RecordChecks.ShortKeyIff` | src/lib/domain-health/mxtoolbox-api.js:170-177 | a record is short-keyed iff it names `k=rsa` and has a `k=rsa; p=` payload of at most 170 characters |
| `RecordChecks.DmarcTagsAreLastGiven` | src/lib/domain-health/mxtoolbox-api.js:189-205 | across records the policy is the lower-cased last `p=` (default none), the percentage the last `pct=` (default 100), and rua and ruf the last given (default null) |
| `RecordChecks.DmarcValidIff` | src/lib/domain-health/mxtoolbox-api.js:207-211 | valid iff the carried policy was quarantine or reject after some record |
| `RecordChecks.DmarcIssuesGrow` | src/lib/domain-health/mxtoolbox-api.js:207-215 | judging another record keeps all earlier issues, in order, at the front |
| `RecordChecks.LastRecordIsJudged` | src/lib/domain-health/mxtoolbox-api.js:207-215 | when no record gives an rua, the missing-rua issue is reported; a final policy of none is reported |
| `RecordChecks.StrongPolicyWithoutRua` | src/lib/domain-health/mxtoolbox-api.js:207-215 | one record with policy quarantine or reject and no rua is valid, and its only issue is the missing-rua issue |
| `RecordChecks.JudgeDmarcRecord` | src/lib/domain-health/mxtoolbox-api.js:188-215 | one record's callback is one step of the DMARC specification: its tags override the carried fields, then the policy and rua are judged |
| `RecordChecks.AnalyzeDmarc` | src/lib/domain-health/mxtoolbox-api.js:186-220 | no records give the defaults with the missing-record issue and recommendation; otherwise the fields are the specified fold over all records |
| `MxChecks.SortByPriority` | src/lib/domain-health/mxtoolbox-api.js:225 | the array ends sorted by ascending priority and is a permutation of what it held |
| `MxChecks.IdentifyEmailProvider` | src/lib/domain-health/mxtoolbox-api.js:357-439 | the nested provider and pattern loop computes the specified best match |
| `MxChecks.IdentifyAtLeastCustom` | src/lib/domain-health/mxtoolbox-api.js:422 | the identified confidence is never below the custom start value 70 |
| `MxChecks.IdentifyIsMaximal` | src/lib/domain-health/mxtoolbox-api.js:424-436 | the result's confidence is at least that of every entry with a pattern matching some exchange |
| `MxChecks.IdentifyIsEarliest` | src/lib/domain-health/mxtoolbox-api.js:424-436 | unless still custom, the result is the earliest matching entry of top confidence; earlier matching entries are strictly lower |
| `MxChecks.ToolboxConfidencesAtMost95` | src/lib/domain-health/mxtoolbox-api.js:358-420 | no entry of the table exceeds 95 |
| `MxChecks.GoogleWins` | src/lib/domain-health/mxtoolbox-api.js:358-379 | when a Google pattern matches, Google is the result, whatever else matches, Microsoft included |
| `MxChecks.IdentifyIgnoresOrder` | src/lib/domain-health/mxtoolbox-api.js:426 | the result depends only on which records exist, not on their order |
| `MxChecks.AnalyzeMx` | src/lib/domain-health/mxtoolbox-api.js:222-243 | records are sorted and a permutation of the answer; with none, the no-MX issue and recommendation; otherwise the identified provider, one issue for a single record and one for any priority-0 record; isValid stays false |
| `Toolbox.SelectorRecordsContain` | src/lib/domain-health/mxtoolbox-api.js:33-39 | every selector's TXT records are part of the DKIM answer, unfiltered |
| `Toolbox.CheckDomainWithToolbox` | src/lib/domain-health/mxtoolbox-api.js:69-245 | SPF and DMARC analyze the filtered first strings of the domain's and `_dmarc`'s TXT records, DKIM the five selectors' records, MX the answer. SPF: count, presence, multiple iff more than one, validity, issues, recommendations. DKIM: count, presence, validity, issues, a set-up recommendation iff none. DMARC: with records, policy, percentage, rua, ruf, validity and issues of the tag fold and no recommendations; without, the fixed absent analysis. MX: sorted permutation of the answer, count, never valid, issues; with records, provider, name and confidence of the best match; without, Unknown/Unknown Provider/0 and an add-MX recommendation |
| `Toolbox.PushIssueItems` | src/lib/domain-health/mxtoolbox-api.js:513-522 | the push loop appends one item per issue, in order |
| `Toolbox.PushPriority` | src/lib/domain-health/mxtoolbox-api.js:447-511 | the priority pushes give exactly the specified must-fix items |
| `Toolbox.PushAdvisory` | src/lib/domain-health/mxtoolbox-api.js:456-523 | the recommendation pushes give exactly the specified advisory items |
| `Toolbox.GenerateRecommendations` | src/lib/domain-health/mxtoolbox-api.js:442-532 | the two lists are the specified items; totalIssues is their combined length; the critical and high counts count the priority list |
| `Toolbox.CriticalCount` | src/lib/domain-health/mxtoolbox-api.js:503-529 | one critical item exactly when MX records are missing |
| `Toolbox.HighCount` | src/lib/domain-health/mxtoolbox-api.js:447-530 | one high item per missing SPF, DKIM and DMARC record set |
| `Toolbox.PriorityLevels` | src/lib/domain-health/mxtoolbox-api.js:447-511 | the count of priority items at a level is the sum of the missing-record indicators of that level |
| `Toolbox.CountLevelAppend` | src/lib/domain-health/mxtoolbox-api.js:529-530 | counting items of a level distributes over concatenation |
| `Toolbox.AdvisoryCount` | src/lib/domain-health/mxtoolbox-api.js:456-523 | one advisory item per SPF issue, one for DMARC policy none, one per MX issue; all are medium or low |
| `Toolbox.DkimIssuesAreIgnored` | src/lib/domain-health/mxtoolbox-api.js:469-479 | DKIM issues change neither list |
| `SpamHouses.HouseCheck` | src/lib/domain-health/mxtoolbox-api.js:280-311 | a house is listed, with status LISTED and the addresses, exactly when its lookup answers before the timeout; otherwise CLEAN with error Timeout exactly for a timeout, else Not listed |
| `SpamHouses.Summarize` | src/lib/domain-health/mxtoolbox-api.js:315-337 | the listed and clean houses are the listed and the clean results, in house order, and partition the results; the listed and clean counts are the lengths of those lists, and the clean count is the number of houses whose zone gave no answer; listed plus clean is the total; isListed iff listedCount > 0; confidence is clean/total |
| `SpamHouses.CleanCountIsUnanswered` | src/lib/domain-health/mxtoolbox-api.js:318-325 | the clean results are exactly as many as the houses whose zone gave no answer |
| `SpamHouses.CheckSpamHouses` | src/lib/domain-health/mxtoolbox-api.js:261-338 | nine houses checked, listed plus clean is nine; the listed and clean houses are the listed and the clean results in the houses' order; the counts are the lengths of the listed and clean lists, and the clean count is the number of the nine houses whose zone gave no answer; a house is among the listed exactly when its zone answered for the domain; the domain is listed exactly when some house's zone answered; confidence is the clean share of nine |
| `SpamHouses.ListedIffAnsweredIn` | src/lib/domain-health/mxtoolbox-api.js:288-317 | a house is among the listed exactly when its zone answered for the domain |
| `SpamHouses.ListedIffSomeAnswerIn` | src/lib/domain-health/mxtoolbox-api.js:315-333 | the domain is reported listed exactly when some house's zone answered |
| `CheckDomain.Split` | src/pages/api/check-domain.js:22 | the domain's dot-separated pieces: at least one, none containing a dot |
| `CheckDomain.JoinSplit` | src/pages/api/check-domain.js:22 | rejoining the pieces gives back the domain |
| `CheckDomain.SplitJoin` | src/pages/api/check-domain.js:22 | splitting dot-free labels joined by dots gives back the labels |
| `CheckDomain.DomainFormatIsRegex` | src/pages/api/check-domain.js:22-23 | the label-by-label test accepts exactly the strings that are one or more 2-to-63-character labels joined by dots, each alphanumeric at both ends and alphanumeric or hyphen inside |
| `CheckDomain.OneLetterLabelRefused` | src/pages/api/check-domain.js:22 | any domain whose first label has one character, and any one-character domain, is refused |
| `CheckDomain.DoubledDotRefused` | src/pages/api/check-domain.js:22 | any domain with two dots in a row is refused |
| `CheckDomain.EmptyDomainRefused` | src/pages/api/check-domain.js:22-23 | the empty string is refused |
| `CheckDomain.Deductions` | src/pages/api/check-domain.js:38-43 | the deductions total at most 100, and are zero exactly for an unlisted domain with all four record types |
| `CheckDomain.HealthScore` | src/pages/api/check-domain.js:38-43 | the step-by-step score is 100 minus the deductions and lies in 0..100 |
| `CheckDomain.ClampAtZero` | src/pages/api/check-domain.js:47 | the clamp never lowers the score and leaves a non-negative score unchanged |
| `CheckDomain.HealthyIff` | src/pages/api/check-domain.js:38-54 | the score is at least 70 exactly when there is at most one problem, or the only problems are missing DMARC and missing MX |
| `CheckDomain.LowestScore` | src/pages/api/check-domain.js:38-47 | a listed domain with no records loses all 100 points, and no combination scores below 0, so the clamp never changes the score |
| `CheckDomain.WorkedScores` | src/pages/api/check-domain.js:38-54 | nothing present and unlisted scores 30; everything present scores 100, or 70 when listed |
| `CheckDomain.FixingNeverHurts` | src/pages/api/check-domain.js:38-43 | fixing any one problem never raises the deductions |
| `CheckDomain.Rejection` | src/pages/api/check-domain.js:11-25 | non-POST gives 405; a missing or empty domain gives 400 "Domain is required"; a badly formed domain gives 400 "Invalid domain format"; otherwise no rejection |
| `CheckDomain.BuildReport` | src/pages/api/check-domain.js:37-67 | score as deducted; healthy iff score >= 70; status FLAGGED iff listed; the four flags copy the record flags; the three legacy verdicts in order |
| `CheckDomain.LiveCheck` | src/pages/api/check-domain.js:30-67 | the report's domain, status, flags, score and health follow the reputation summary and the DNS answers; its three legacy entries are judged over the flagged catalog checks; its SPF, DKIM and DMARC sections are the summaries of the TXT answers and its MX section describes the MX answer; the cache ends refreshed for all ten zones |
| `CheckDomain.Handle` | src/pages/api/check-domain.js:10-107 | a rejected request gets its rejection and leaves the cache alone; otherwise demo data, or status 200 with a live report described as for `CheckDomain.LiveCheck` |
| `Middleware.AppHost` | src/middleware.js:4 | the app host is the configured host when given, else `localhost:3000` |
| `Middleware.Route` | src/middleware.js:3-43 | pass-through paths continue; a missing host header fails; a rewrite happens iff the host is neither a main domain, nor contains `vercel.app`, nor is the app host; the rewrite path is `/_sites/<tenant><path>` |
| `Middleware.RewriteShape` | src/middleware.js:35-38 | a rewritten path starts with `/_sites/` and ends with the original path |
| `Middleware.RewriteIsFinal` | src/middleware.js:10-12 | running the middleware on a rewritten path continues unchanged |
| `Middleware.MainHostsPassThrough` | src/middleware.js:25-42 | the three main hosts, any `vercel.app` host and the app host continue unchanged |
| `Middleware.ForeignHostKeptWhole` | src/middleware.js:36-37 | a host without `.<app host>` becomes the site name whole |
| `Middleware.TenantRewrite` | src/middleware.js:35-38 | a one-label tenant of the app host is rewritten to `/_sites/<tenant><path>` |

## Left out

- Real DNS, timeouts and fan-out. Lookups, their timeouts (`Promise.race`) and the parallel fan-out (`Promise.all`, `Promise.allSettled`) are not modelled; each lookup outcome is an input. The ten zone checks run one after another in catalog order. The query names are distinct (`Blacklist.QueryNamesDistinct`), so the final cache does not depend on that order (`Blacklist.RefreshServes`). The model does not capture interleaving with other concurrent analyses sharing the cache.
- Clock and timing fields. `Date.now()` becomes the parameter `now`, one instant per analysis. ISO timestamps, `responseTime`, `avgResponseTime`, `totalTime` and `checkedAt` are left out.
- Floating point. Confidences are integer hundredths or exact `Ratio` fractions, so `Math.min(..., 1)` and `Math.round` are not modelled. `Blacklist.Summarize` proves that the ratio never exceeds 1.
- Case folding and regular expressions. `toLowerCase` is modelled for ASCII letters only. Every regular expression is its literal substring, prefix or `tag([class]+)` capture.
- The Google pattern `alt\d+\.aspmx\.l\.google\.com`. Everything it matches contains `aspmx.l.google.com`, which the same provider lists first, so it never changes a result.
- `parseInt` precision. Digit runs beyond 2^53 are read exactly, not rounded.
- Outer `try`/`catch` fallbacks: free-apis.js:374-382 and 468-489, mxtoolbox-api.js:246-257 and 339-353, and the 500 response at check-domain.js:108-111. With DNS answers as inputs, nothing inside those `try` blocks can throw, because every TXT record has a first character-string.
- A non-string `domain` in the request body. The domain is an optional string; absent and empty both count as missing.
- Supplementary lookups of `checkDomainWithMXToolbox`: A, AAAA, CNAME, NS, SOA and all-TXT, at mxtoolbox-api.js:50-65 and 124-131. The always-empty DKIM `selectors` field is also left out. None of them feeds any analysis.
- `CheckDomain.Handle`: the demo branch (check-domain.js:68-105) draws every field from `Math.random`, so it is modelled only as a `Demo(domain)` body with status 200.
- `Middleware.Route`: `APP_URL` is taken as its already-parsed host. URL parsing and the `NextResponse` objects are not modelled.
- `getSpamHouseContact` (free-apis.js:492-500) is neither exported nor called. `MXTOOLBOX_BASE_URL` is unused. `real-apis.js` is not part of this model.
- `MxChecks.SortByPriority`: the comparator `a.priority - b.priority` is modelled by an insertion sort that moves a record only past strictly higher priorities. Its contract states only sortedness and permutation, not which order equal priorities end in.
- `Blacklist.BlacklistChecker.QueryBlacklist`: a cache hit is served as the cached entry, the evidently intended behaviour; the code as written reports every hit as not listed, which `Blacklist.ServedAsWritten` models (see Findings).
- `Blacklist.BlacklistChecker.CheckBlacklist`: an unknown zone key returns None, where the source would throw reading the name of a missing zone; every caller passes a catalog key.

## Findings

| source | as written | input that shows it | evidently intended | confidence | as-written member | corrected member |
|---|---|---|---|---|---|---|
| src/lib/domain-health/free-apis.js:93-96 | a cache hit returns `cached.result`, but the cache stores the result object itself, which has no `result` field, so a hit yields `undefined` and `checkBlacklist` reports the zone as not listed, with no records or error | cache holding `example.com.dbl.spamhaus.org` listed at time 0, queried again at 1000 ms: reported clean | a hit returns the cached entry itself, so a repeat within the lifetime reports the same result | high, not executed | `Blacklist.AsWrittenCachedListingReportedClean` | `Blacklist.RepeatWithinTtlIsServedFromCache` |
