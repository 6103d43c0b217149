/**
 * The CDK app: the website stack in eu-west-1 and the certificate stack in
 * us-east-1, and what the two stacks must agree on for the website to pick
 * up the certificate through the parameter store.
 */
module Deployment {
  import opened Strings
  import opened Domains
  import opened ParameterStore
  import CertificateStack
  import WebsiteStack

  /** The account and region a stack is deployed to. */
  datatype Environment = Environment(account: string, region: string)

  const WebsiteEnv := Environment("581911119805", "eu-west-1")
  const CertificateEnv := Environment("581911119805", "us-east-1")

  /**
   * Once the certificate stack's parameters are in its region's store, the
   * website's `GetCertArn` read, made across regions, finds the ARN of the
   * website certificate, whatever the store held before. The Cognito key
   * holds the auth certificate's ARN.
   */
  lemma {:induction false} CertificateHandoff(apex: string, san: string, store: map<Address, CertificateStack.Arn>)
    ensures WebsiteStack.CertificateSource(apex).region == CertificateEnv.region != WebsiteEnv.region
    ensures
      var plan := CertificateStack.Synthesize(apex, san);
      var source := WebsiteStack.CertificateSource(apex);
      var deployed := PutAll(store, CertificateEnv.region, plan.parameters);
      Get(deployed, source.region, source.name) == Some(CertificateStack.CertificateArn(plan.website.id)) &&
      Get(deployed, CertificateEnv.region, "CognitoCertArn") == Some(CertificateStack.CertificateArn(plan.auth.id))
  {
    var plan := CertificateStack.Synthesize(apex, san);
    var source := WebsiteStack.CertificateSource(apex);
    var params := plan.parameters;
    CertificateStack.ParameterNamesDistinct(apex, san);
    GetAfterPutAll(store, CertificateEnv.region, params, source.region, source.name);
    GetAfterPutAll(store, CertificateEnv.region, params, CertificateEnv.region, "CognitoCertArn");
    assert params[..1] == [params[0]];
    assert params[..1][..0] == [];
  }

  /**
   * The read depends on the certificate stack's region: if the key was never
   * written in us-east-1, then deploying any parameters, the certificate
   * stack's own included, into the website's region leaves the read failing
   * with ParameterNotFound.
   */
  lemma {:induction false} ReadFailsWithoutProducerRegion(apex: string, store: map<Address, CertificateStack.Arn>, params: seq<StringParameter<CertificateStack.Arn>>)
    requires WebsiteStack.CertificateSource(apex) !in store
    ensures
      var source := WebsiteStack.CertificateSource(apex);
      Get(PutAll(store, WebsiteEnv.region, params), source.region, source.name) == None
  {
    var source := WebsiteStack.CertificateSource(apex);
    GetAfterPutAll(store, WebsiteEnv.region, params, source.region, source.name);
  }

  /** Both stacks derive the same alternate names: the certificate's are the distribution's aliases without the apex. */
  lemma SameAlternateNames(apex: string, san: string)
    ensures
      var aliases := WebsiteStack.MakeDistribution(apex, Sans(apex, san)).aliases;
      CertificateStack.Synthesize(apex, san).website.subjectAlternativeNames == aliases[..|aliases| - 1]
  {
  }

  /** The website certificate covers exactly the distribution's aliases, as a set. */
  lemma CertificateCoversAliases(apex: string, san: string)
    ensures
      var aliases := WebsiteStack.MakeDistribution(apex, Sans(apex, san)).aliases;
      WebsiteCertificateNames(apex, san) == set a | a in aliases
  {
  }

  /** The host names of the website certificate. */
  function WebsiteCertificateNames(apex: string, san: string): (names: set<string>)
    ensures apex in names
  {
    CertificateStack.CoveredNames(CertificateStack.Synthesize(apex, san).website)
  }

  /**
   * apex `example.com` with alternate labels `www,blog`: the website
   * certificate covers exactly example.com, www.example.com and
   * blog.example.com.
   */
  lemma ExampleComCertificate(apex: string, san: string)
    requires apex == "example.com" && san == "www,blog"
    ensures WebsiteCertificateNames(apex, san) == {"example.com", "www.example.com", "blog.example.com"}
  {
    ExampleComSans(apex, san);
  }

  /** `"www,blog"` splits into its two labels. */
  lemma ExampleComLabels(san: string)
    requires san == "www,blog"
    ensures Split(san, ',') == ["www", "blog"]
  {
    var labels := ["www", "blog"];
    var joined := "www" + [','] + "blog";
    assert Join(labels, ',') == joined;
    assert forall i :: 0 <= i < |joined| ==> joined[i] == san[i];
    assert joined == san;
    SplitJoin(labels, ',');
  }

  /** `"www,blog"` qualified by `example.com`. */
  lemma ExampleComSans(apex: string, san: string)
    requires apex == "example.com" && san == "www,blog"
    ensures Sans(apex, san) == ["www.example.com", "blog.example.com"]
  {
    ExampleComLabels(san);
    var www, blog := "www" + "." + apex, "blog" + "." + apex;
    assert forall i :: 0 <= i < |www| ==> www[i] == "www.example.com"[i];
    assert forall i :: 0 <= i < |blog| ==> blog[i] == "blog.example.com"[i];
    assert www == "www.example.com" && blog == "blog.example.com";
    var sans := Sans(apex, san);
    assert sans[0] == www && sans[1] == blog;
  }

  /** The CNAME construct ids for `www` and `blog`. */
  lemma ExampleComCnameIds(apex: string, san: string)
    requires apex == "example.com" && san == "www,blog"
    ensures |Sans(apex, san)| == 2
    ensures WebsiteStack.CnameId(Sans(apex, san)[0]) == "wwwCnameRecord"
    ensures WebsiteStack.CnameId(Sans(apex, san)[1]) == "blogCnameRecord"
  {
    ExampleComLabels(san);
    WebsiteStack.CnameIdOfSan(apex, san, 0);
    WebsiteStack.CnameIdOfSan(apex, san, 1);
    var www, blog := "www" + "CnameRecord", "blog" + "CnameRecord";
    assert forall i :: 0 <= i < |www| ==> www[i] == "wwwCnameRecord"[i];
    assert forall i :: 0 <= i < |blog| ==> blog[i] == "blogCnameRecord"[i];
  }

  /**
   * apex `example.com` with alternate labels `www,blog`: an A record for
   * example.com aliased to the distribution, then CNAMEs www.example.com and
   * blog.example.com, both pointing at example.com.
   */
  method ExampleComRecords(apex: string, san: string) returns (records: seq<WebsiteStack.DnsRecord>)
    requires apex == "example.com" && san == "www,blog"
    ensures |records| == 3
    ensures records[0].kind == WebsiteStack.A && records[0].recordName == "example.com"
    ensures records[0].target == WebsiteStack.DistributionAlias
    ensures records[1].recordName == "www.example.com" && records[1].id == "wwwCnameRecord"
    ensures records[2].recordName == "blog.example.com" && records[2].id == "blogCnameRecord"
    ensures records[1].kind == WebsiteStack.Cname && records[2].kind == WebsiteStack.Cname
    ensures records[1].target == records[2].target == WebsiteStack.DomainName("example.com")
  {
    ExampleComCnameIds(apex, san);
    var plan := WebsiteStack.Synthesize(apex, san);
    records := plan.records;
    var aliases := plan.distribution.aliases;
    assert records[1].id == WebsiteStack.CnameId(aliases[0]) && aliases[0] == Sans(apex, san)[0];
    assert records[2].id == WebsiteStack.CnameId(aliases[1]) && aliases[1] == Sans(apex, san)[1];
    ExampleComSans(apex, san);
  }
}
