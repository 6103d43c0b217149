/**
 * The apex domain, its Route 53 hosted zone and the subject alternate names
 * derived from the `domain_name` and `san_domain_names` context values.
 */
module Domains {
  import opened Strings

  /** A hosted zone found by `HostedZone.fromLookup`, identified by its domain name. */
  datatype HostedZone = HostedZone(domainName: string)

  /** `labels.map(hostname => hostname + '.' + apex)`. */
  function Qualify(labels: seq<string>, apex: string): (fqdns: seq<string>)
    ensures |fqdns| == |labels|
    ensures forall i :: 0 <= i < |labels| ==> fqdns[i] == labels[i] + "." + apex
    decreases |labels|
  {
    if labels == [] then [] else [labels[0] + "." + apex] + Qualify(labels[1..], apex)
  }

  /**
   * The subject alternate names: `san.split(',')` with each label qualified
   * by the apex. One entry per comma-separated piece, in order, so one more
   * than the number of commas and never empty.
   */
  function Sans(apex: string, san: string): (sans: seq<string>)
    ensures |sans| == CountOf(san, ',') + 1
    ensures forall i :: 0 <= i < |sans| ==> sans[i] == Split(san, ',')[i] + "." + apex
  {
    Qualify(Split(san, ','), apex)
  }

  /** Every alternate name is a strict subdomain of the apex. */
  lemma SansAreSubdomains(apex: string, san: string)
    ensures forall i :: 0 <= i < |Sans(apex, san)| ==>
      EndsWith(Sans(apex, san)[i], "." + apex) && |Sans(apex, san)[i]| > |apex|
  {
  }

  /** Distinct labels give distinct alternate names; the source does not check for duplicates. */
  lemma SansInjective(apex: string, san: string, i: nat, j: nat)
    requires i < |Sans(apex, san)| && j < |Sans(apex, san)|
    requires Sans(apex, san)[i] == Sans(apex, san)[j]
    ensures Split(san, ',')[i] == Split(san, ',')[j]
  {
    var a, b := Split(san, ',')[i], Split(san, ',')[j];
    var s := Sans(apex, san)[i];
    assert |a| == |b|;
    assert a == s[..|a|];
    assert b == s[..|b|];
  }
}
