/**
 * The website stack: the static-asset uploads, the CloudFront distribution
 * that serves them under the apex and its alternate names with the
 * certificate read back from the parameter store, and the Route 53 records
 * that point those names at the distribution.
 */
module WebsiteStack {
  import opened Strings
  import opened Domains
  import opened ParameterStore

  /** An `s3deploy.BucketDeployment` into the static-asset bucket. */
  datatype Upload = Upload(id: string, source: string, keyPrefix: string)

  datatype EventType = OriginRequest | ViewerRequest

  /** A Lambda@Edge function version attached to a request-lifecycle event. */
  datatype LambdaAssociation = LambdaAssociation(eventType: EventType, versionArn: string)

  datatype ViewerProtocolPolicy = RedirectToHttps

  datatype Distribution = Distribution(
    originPath: string,
    compress: bool,
    associations: seq<LambdaAssociation>,
    aliases: seq<string>,
    certificate: Address,
    viewerProtocolPolicy: ViewerProtocolPolicy,
    defaultRootObject: string)

  /** Where a record points: the distribution (an alias target) or another host name. */
  datatype Target = DistributionAlias | DomainName(name: string)

  datatype RecordKind = A | Cname

  datatype DnsRecord = DnsRecord(id: string, kind: RecordKind, zone: HostedZone, recordName: string, target: Target)

  datatype WebsitePlan = WebsitePlan(
    zone: HostedZone,
    uploads: seq<Upload>,
    distribution: Distribution,
    records: seq<DnsRecord>)

  const WebAssets := Upload("DeployWebAssets", "./site_assets", "www/static")
  const PrivateAssets := Upload("DeployPrivateAssets", "./private_assets", "private/static")

  /** The origin-request function version, a fixed ARN rather than one read from the parameter store. */
  const RedirectVersionArn := "arn:aws:lambda:us-east-1:581911119805:function:testredirect:1"

  /** The parameter the `GetCertArn` custom resource reads the certificate ARN from. */
  function CertificateSource(apex: string): Address
  {
    Address("us-east-1", apex + "-SSLCertificate")
  }

  /** `subjectAlternateNames.concat(apex)`: the alternate names, then the apex. */
  function Aliases(apex: string, sans: seq<string>): (aliases: seq<string>)
    ensures |aliases| == |sans| + 1
    ensures aliases[..|sans|] == sans && aliases[|sans|] == apex
  {
    sans + [apex]
  }

  /** The CloudFront distribution for apex `apex` and alternate names `sans`. */
  function MakeDistribution(apex: string, sans: seq<string>): (d: Distribution)
    ensures d.originPath == "/" + WebAssets.keyPrefix
    ensures d.aliases == Aliases(apex, sans)
    ensures d.certificate.region == "us-east-1" && d.certificate.name == apex + "-SSLCertificate"
    ensures d.compress && d.viewerProtocolPolicy == RedirectToHttps
    ensures forall k :: 0 <= k < |d.associations| ==> d.associations[k].eventType == OriginRequest
  {
    Distribution(
      "/www/static",
      true,
      [LambdaAssociation(OriginRequest, RedirectVersionArn)],
      Aliases(apex, sans),
      CertificateSource(apex),
      RedirectToHttps,
      "index.html")
  }

  /** The construct id of the CNAME record for `fqdn`: its first label, then "CnameRecord". */
  function CnameId(fqdn: string): string
  {
    FirstLabel(fqdn) + "CnameRecord"
  }

  /** The CNAME id of an alternate name is its label followed by "CnameRecord". */
  lemma CnameIdOfSan(apex: string, san: string, i: nat)
    requires i < |Sans(apex, san)|
    ensures CnameId(Sans(apex, san)[i]) == FirstLabel(Split(san, ',')[i]) + "CnameRecord"
    ensures '.' !in Split(san, ',')[i] ==> CnameId(Sans(apex, san)[i]) == Split(san, ',')[i] + "CnameRecord"
  {
    FirstLabelOfQualified(Split(san, ',')[i], apex);
  }

  /** Distinct labels without a '.' give distinct CNAME construct ids. */
  lemma CnameIdsDistinct(apex: string, san: string, i: nat, j: nat)
    requires i < |Sans(apex, san)| && j < |Sans(apex, san)|
    requires '.' !in Split(san, ',')[i] && '.' !in Split(san, ',')[j]
    requires Split(san, ',')[i] != Split(san, ',')[j]
    ensures CnameId(Sans(apex, san)[i]) != CnameId(Sans(apex, san)[j])
  {
    CnameIdOfSan(apex, san, i);
    CnameIdOfSan(apex, san, j);
    SuffixCancels(Split(san, ',')[i], Split(san, ',')[j], "CnameRecord");
  }

  /**
   * The apex A record aliased to the distribution, then one CNAME per
   * alternate name, in order, each pointing at the apex rather than at the
   * distribution.
   */
  method DnsRecords(zone: HostedZone, apex: string, sans: seq<string>) returns (records: seq<DnsRecord>)
    ensures |records| == |sans| + 1
    ensures records[0] == DnsRecord("ApexRecord", A, zone, zone.domainName, DistributionAlias)
    ensures forall i :: 0 <= i < |sans| ==>
      records[i + 1] == DnsRecord(CnameId(sans[i]), Cname, zone, sans[i], DomainName(apex))
    ensures forall k :: 1 <= k < |records| ==> records[k].kind == Cname && records[k].target != DistributionAlias
  {
    records := [DnsRecord("ApexRecord", A, zone, zone.domainName, DistributionAlias)];
    for i := 0 to |sans|
      invariant |records| == i + 1
      invariant records[0] == DnsRecord("ApexRecord", A, zone, zone.domainName, DistributionAlias)
      invariant forall j :: 0 <= j < i ==>
        records[j + 1] == DnsRecord(CnameId(sans[j]), Cname, zone, sans[j], DomainName(apex))
      invariant forall k :: 1 <= k < |records| ==> records[k].kind == Cname && records[k].target != DistributionAlias
    {
      records := records + [DnsRecord(CnameId(sans[i]), Cname, zone, sans[i], DomainName(apex))];
    }
  }

  /** The resources the stack declares for apex domain `apex` and alternate labels `san`. */
  method Synthesize(apex: string, san: string) returns (plan: WebsitePlan)
    ensures plan.zone == HostedZone(apex)
    ensures plan.uploads == [WebAssets, PrivateAssets]
    ensures plan.distribution == MakeDistribution(apex, Sans(apex, san))
    ensures |plan.records| == |plan.distribution.aliases| == CountOf(san, ',') + 2
    ensures plan.records[0].kind == A && plan.records[0].target == DistributionAlias
    ensures plan.records[0].recordName == apex == plan.distribution.aliases[|plan.distribution.aliases| - 1]
    ensures forall k :: 0 <= k < |plan.distribution.aliases| - 1 ==>
      plan.records[k + 1].kind == Cname &&
      plan.records[k + 1].id == CnameId(plan.distribution.aliases[k]) &&
      plan.records[k + 1].recordName == plan.distribution.aliases[k] &&
      plan.records[k + 1].target == DomainName(apex)
  {
    var zone := HostedZone(apex);
    var sans := Sans(apex, san);
    var distribution := MakeDistribution(apex, sans);
    var records := DnsRecords(zone, apex, sans);
    plan := WebsitePlan(zone, [WebAssets, PrivateAssets], distribution, records);
    forall k | 0 <= k < |sans|
      ensures plan.records[k + 1].id == CnameId(plan.distribution.aliases[k])
    {
      assert plan.distribution.aliases[k] == (sans + [apex])[k] == sans[k];
    }
  }
}
