/** The DNS answers the domain-health engine consumes, as plain values. Every
    lookup the source performs with `dns.resolve4`, `dns.resolveTxt` or
    `dns.resolveMx` becomes a read of one of these. */
module Dns {
  import opened Text

  /** Outcome of one A-record lookup (`dns.resolve4`) raced against its timeout. */
  datatype Lookup = Resolved(addresses: seq<string>) | Failed(message: string) | TimedOut

  /** The A-record answers of the DNS at analysis time, by query name. */
  type Resolver = string -> Lookup

  /** A TXT record: one or more character-strings (section 3.3.14 of RFC 1035). */
  type TxtRecord = r: seq<string> | |r| > 0 witness [""]

  /** The TXT answers of the DNS at analysis time, by owner name; None when
      `dns.resolveTxt` rejects (no such name, no TXT data, network failure). */
  type TxtZone = string -> Option<seq<TxtRecord>>

  /** One answer of `dns.resolveMx`. */
  datatype MxRecord = MxRecord(priority: nat, exchange: string)

  /** `records.map(r => r[0])`: the first character-string of every record. */
  function FirstChunks(rs: seq<TxtRecord>): (r: seq<string>)
    ensures |r| == |rs|
    ensures forall i :: 0 <= i < |rs| ==> r[i] == rs[i][0]
  {
    seq(|rs|, i requires 0 <= i < |rs| => rs[i][0])
  }
}
