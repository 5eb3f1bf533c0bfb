/** The mail-provider pattern tables. Every pattern of the source is a
    case-insensitive regular expression that is a plain literal (its `\.` escapes
    stand for dots), so it is kept here as the lower-case literal it must occur as.
    The one exception, Google's `alt\d+\.aspmx\.l\.google\.com`, is left out of both
    tables: everything it matches contains `aspmx.l.google.com`, the pattern listed
    before it for the same provider, so it never decides a match.
    Confidences are in hundredths (0.9 is 90). */
module Providers {
  import opened Text

  datatype Provider = Provider(key: string, name: string, patterns: seq<string>, confidence: nat)

  /** Some pattern of `p` occurs in `host` (already lower-cased by the caller). */
  predicate ProviderMatches(p: Provider, host: string) {
    exists k :: 0 <= k < |p.patterns| && Contains(host, p.patterns[k])
  }

  /** Index of the first provider of `table`, in table order, with a pattern in `host`. */
  function FirstProvider(table: seq<Provider>, host: string): (r: Option<nat>)
    ensures r.Some? ==> r.value < |table| && ProviderMatches(table[r.value], host)
    ensures r.Some? ==> forall j :: 0 <= j < r.value ==> !ProviderMatches(table[j], host)
    ensures r.None? ==> forall j :: 0 <= j < |table| ==> !ProviderMatches(table[j], host)
  {
    FirstProviderFrom(table, host, 0)
  }

  function FirstProviderFrom(table: seq<Provider>, host: string, from: nat): (r: Option<nat>)
    requires from <= |table|
    decreases |table| - from
    ensures r.Some? ==> from <= r.value < |table| && ProviderMatches(table[r.value], host)
    ensures r.Some? ==> forall j :: from <= j < r.value ==> !ProviderMatches(table[j], host)
    ensures r.None? ==> forall j :: from <= j < |table| ==> !ProviderMatches(table[j], host)
  {
    if from == |table| then None
    else if ProviderMatches(table[from], host) then Some(from)
    else FirstProviderFrom(table, host, from + 1)
  }

  /** The table of `analyzeMXRecords` on the key-less path (free-apis.js). */
  const LiveProviders: seq<Provider> := [
    Provider("google", "Google Workspace (Gmail)",
             ["aspmx.l.google.com", "aspmx2.googlemail.com", "aspmx3.googlemail.com",
              "aspmx4.googlemail.com", "aspmx5.googlemail.com"], 90),
    Provider("microsoft", "Microsoft 365 (Outlook)",
             [".mail.protection.outlook.com", ".mail.outlook.com", ".mail.live.com", ".hotmail.com"], 90),
    Provider("brevo", "Brevo (formerly Sendinblue)", ["mail.brevo.com", ".brevo.com"], 90),
    Provider("mailgun", "Mailgun", ["mailgun.org", ".mailgun.org"], 90),
    Provider("zoho", "Zoho Mail", [".zoho.com", ".zohomail.com"], 90),
    Provider("sendgrid", "SendGrid", [".sendgrid.net", ".sendgrid.com"], 90),
    Provider("amazon", "Amazon SES", [".amazonses.com", ".amazonaws.com"], 90),
    Provider("mailchimp", "Mailchimp", [".mailchimp.com", ".mandrillapp.com"], 90),
    Provider("postmark", "Postmark", [".postmarkapp.com"], 90),
    Provider("sparkpost", "SparkPost", [".sparkpostmail.com", ".sparkpost.com"], 90),
    Provider("custom", "Custom/Private Server", ["mail.", "smtp.", "mx."], 70)
  ]

  /** The table of `identifyEmailProvider` (mxtoolbox-api.js): no catch-all entry,
      and Google and Microsoft rank above the rest. */
  const ToolboxProviders: seq<Provider> := [
    Provider("google", "Google Workspace (Gmail)",
             ["aspmx.l.google.com", "aspmx2.googlemail.com", "aspmx3.googlemail.com",
              "aspmx4.googlemail.com", "aspmx5.googlemail.com"], 95),
    Provider("microsoft", "Microsoft 365 (Outlook)",
             [".mail.protection.outlook.com", ".mail.outlook.com", ".mail.live.com"], 95),
    Provider("brevo", "Brevo (formerly Sendinblue)", ["mail.brevo.com", ".brevo.com"], 90),
    Provider("mailgun", "Mailgun", ["mailgun.org", ".mailgun.org"], 90),
    Provider("zoho", "Zoho Mail", [".zoho.com", ".zohomail.com"], 90),
    Provider("sendgrid", "SendGrid", [".sendgrid.net", ".sendgrid.com"], 90),
    Provider("amazon", "Amazon SES", [".amazonses.com", ".amazonaws.com"], 90),
    Provider("mailchimp", "Mailchimp", [".mailchimp.com", ".mandrillapp.com"], 90),
    Provider("postmark", "Postmark", [".postmarkapp.com"], 90),
    Provider("sparkpost", "SparkPost", [".sparkpostmail.com", ".sparkpost.com"], 90)
  ]

  /** `for (provider of table) for (pattern of provider.patterns) if (test) { ...; break }`:
      the nested search of `analyzeMXRecords` for one lower-cased exchange host. */
  method FindProvider(table: seq<Provider>, host: string) returns (found: Option<nat>)
    ensures found == FirstProvider(table, host)
  {
    var k := 0;
    while k < |table|
      invariant 0 <= k <= |table|
      invariant forall j :: 0 <= j < k ==> !ProviderMatches(table[j], host)
    {
      var m := 0;
      while m < |table[k].patterns|
        invariant 0 <= m <= |table[k].patterns|
        invariant forall n :: 0 <= n < m ==> !Contains(host, table[k].patterns[n])
      {
        if Contains(host, table[k].patterns[m]) {
          assert ProviderMatches(table[k], host);
          return Some(k);
        }
        m := m + 1;
      }
      k := k + 1;
    }
    return None;
  }
}
