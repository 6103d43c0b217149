/**
 * The certificate stack: two DNS-validated ACM certificates, one for the
 * website (apex plus alternate names) and one for the Cognito user-pool
 * domain, and the two SSM parameters that publish their ARNs.
 */
module CertificateStack {
  import opened Strings
  import opened Domains
  import opened ParameterStore

  /** `CertificateValidation.fromDns(zone)`. */
  datatype Validation = Dns(zone: HostedZone)

  datatype Certificate = Certificate(
    id: string,
    domainName: string,
    subjectAlternativeNames: seq<string>,
    validation: Validation)

  /** The `certificateArn` token of the certificate with construct id `certificateId`. */
  datatype Arn = CertificateArn(certificateId: string)

  datatype CertificatePlan = CertificatePlan(
    zone: HostedZone,
    website: Certificate,
    auth: Certificate,
    parameters: seq<StringParameter<Arn>>)

  /** The host names a certificate is valid for. */
  function CoveredNames(c: Certificate): set<string>
  {
    {c.domainName} + set n | n in c.subjectAlternativeNames
  }

  /** The resources the stack declares for apex domain `apex` and alternate labels `san`. */
  function Synthesize(apex: string, san: string): (plan: CertificatePlan)
    ensures plan.zone == HostedZone(apex)
    ensures plan.website.validation == Dns(plan.zone) && plan.auth.validation == Dns(plan.zone)
    ensures plan.website.domainName == apex
    ensures plan.website.subjectAlternativeNames == Sans(apex, san)
    ensures CoveredNames(plan.website) == {apex} + set n | n in Sans(apex, san)
    ensures plan.auth.domainName == "auth." + apex && plan.auth.subjectAlternativeNames == []
    ensures CoveredNames(plan.auth) == {"auth." + apex}
    ensures plan.website.id != plan.auth.id
    ensures |plan.parameters| == 2
    ensures plan.parameters[0].name == apex + "-SSLCertificate"
    ensures plan.parameters[0].value == CertificateArn(plan.website.id)
    ensures plan.parameters[1].name == "CognitoCertArn"
    ensures plan.parameters[1].value == CertificateArn(plan.auth.id)
  {
    var zone := HostedZone(apex);
    var website := Certificate("WebsiteSSLCertificate", apex, Sans(apex, san), Dns(zone));
    var auth := Certificate("CognitoUserPoolDomainCert", "auth." + apex, [], Dns(zone));
    CertificatePlan(zone, website, auth, [
      StringParameter("WebsiteSSLCertificateARN", apex + "-SSLCertificate", CertificateArn(website.id)),
      StringParameter("CognitoSSLCertificateARN", "CognitoCertArn", CertificateArn(auth.id))
    ])
  }

  /**
   * The two parameter names never collide, whatever the apex: "CognitoCertArn"
   * does not end in "-SSLCertificate".
   */
  lemma ParameterNamesDistinct(apex: string, san: string)
    ensures !EndsWith("CognitoCertArn", "-SSLCertificate")
    ensures Synthesize(apex, san).parameters[0].name != Synthesize(apex, san).parameters[1].name
  {
  }
}
