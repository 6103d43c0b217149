# cdk-website-example: the deployment plan, in Dafny

The repository is an AWS CDK app with two stacks:

- **`CertificateStack`**, deployed to `us-east-1`, issues two DNS-validated ACM certificates. The website certificate covers the apex domain and its subject alternate names (SANs). The Cognito certificate covers `auth.` + apex. The stack writes both ARNs to the SSM parameter store.
- **`WebsiteStack`**, deployed to `eu-west-1`, reads the website certificate's ARN back from the parameter store in `us-east-1`. It builds a CloudFront distribution whose aliases are the SANs and the apex. It adds an apex A record aliased to the distribution, and one CNAME per SAN that points at the apex.

Everything these stacks compute for themselves comes from two context strings: the apex `domain_name` and the comma-separated labels `san_domain_names`. This project models that computation as a pure deployment plan. It proves what the plan promises, and that the two stacks agree with each other.

Modules:

- `Strings` (strings.dfy): JavaScript's `split` with a one-character separator, its inverse `join`, and `fqdn.split('.')[0]`.
- `ParameterStore` (parameter_store.dfy): the SSM parameter store as a map from (region, name) to value.
- `Domains` (domains.dfy): the hosted zone and the SAN derivation that both stacks perform.
- `CertificateStack` (certificate_stack.dfy): the certificate plan and the two parameter writes.
- `WebsiteStack` (website_stack.dfy): the distribution, the certificate read and the DNS records. The record loop is a method with loop invariants.
- `Deployment` (deployment.dfy): the two stacks' regions, and the lemmas that relate the two stacks.

The certificate stack and the website stack each compute the SAN list with the same expression. The model defines it once (`Domains.Sans`) and states the agreement on the two stacks' plans. Each stack keeps its own literal for the parameter name. That is why the producer/consumer key agreement is a real proof obligation.

## Model

| member | source | states |
|---|---|---|
| Strings.Split | lib/website-stack.ts:38-39 | `san.split(',')` returns one piece more than there are separators, so it is never empty, and no piece contains the separator |
| Strings.JoinSplit | lib/website-stack.ts:38-39 | joining the pieces of a split with the separator gives back the original string, so splitting loses nothing |
| Strings.SplitJoin | lib/website-stack.ts:38-39 | splitting a join of separator-free pieces gives back exactly those pieces, in order |
| Strings.FirstLabel | lib/website-stack.ts:158 | `fqdn.split('.')[0]` is a prefix of `fqdn` without a '.'; either it is all of `fqdn` or the next character is the first '.' |
| Strings.FirstLabelOfQualified | lib/website-stack.ts:157-158 | the first label of `label + "." + apex` is the first label of `label`; for a label without a '.' it is the label itself |
| ParameterStore.Put | lib/certificate-stack.ts:53-57 | after a write, a read of the same region and name returns the written value, and every other address reads as before |
| ParameterStore.GetAfterPutAll | lib/certificate-stack.ts:53-64 | after a stack's parameters are written in order, a read in that region returns the last value written under the name; any other read is unchanged |
| Domains.Qualify | lib/website-stack.ts:40-42 | the `map` keeps one entry per label, in order, and entry i is label i + "." + apex |
| Domains.Sans | lib/website-stack.ts:38-42 | there is one SAN per comma-separated piece of `san`, in order, so the count is the number of commas plus one; SAN i is piece i + "." + apex |
| Domains.SansAreSubdomains | lib/website-stack.ts:40-42 | every SAN ends with "." + apex and is strictly longer than apex |
| Domains.SansInjective | lib/website-stack.ts:38-42 | two equal SANs come from equal labels, so distinct labels give distinct SANs |
| CertificateStack.Synthesize | lib/certificate-stack.ts:12-64 | both certificates are DNS-validated against the zone looked up by apex; the website certificate covers {apex} ∪ SANs; the auth certificate is for `auth.` + apex with no alternative names, so it covers exactly that name; exactly two parameters are written, apex + "-SSLCertificate" with the website certificate's ARN and "CognitoCertArn" with the auth certificate's ARN |
| CertificateStack.ParameterNamesDistinct | lib/certificate-stack.ts:53-64 | "CognitoCertArn" does not end in "-SSLCertificate", so the two parameter names never collide, whatever the apex |
| WebsiteStack.Aliases | lib/website-stack.ts:102 | the aliases are the SANs followed by the apex: one longer, prefix equal to the SANs, last element apex |
| WebsiteStack.MakeDistribution | lib/website-stack.ts:112-139 | the origin path is "/" followed by the upload key prefix "www/static"; the aliases are SANs then apex; the certificate comes from apex + "-SSLCertificate" in us-east-1; responses are compressed, HTTP is redirected to HTTPS, and every edge association runs at origin request |
| WebsiteStack.CnameIdOfSan | lib/website-stack.ts:157-158 | the construct id of SAN i's CNAME is the first label of piece i followed by "CnameRecord"; for a piece without a '.', it is the piece itself |
| WebsiteStack.CnameIdsDistinct | lib/website-stack.ts:157-158 | two distinct labels without a '.' give distinct CNAME construct ids (the source does not check this precondition) |
| WebsiteStack.DnsRecords | lib/website-stack.ts:148-164 | the records are the apex A record aliased to the distribution, then exactly one CNAME per SAN in SAN order; each CNAME is named by the SAN, targets the apex and has the id from `CnameId`; no CNAME targets the distribution |
| WebsiteStack.Synthesize | lib/website-stack.ts:24-164 | the stack uploads to "www/static" and "private/static" and builds the distribution from the SANs. There is one record per alias: the A record names the last alias (the apex) and targets the distribution. The record after it, for each other alias, is a CNAME with that name and its derived id, pointing at the apex |
| Deployment.CertificateHandoff | lib/website-stack.ts:74-86 | the website reads the certificate from us-east-1, the certificate stack's region and not the website's. Whatever the store held before, once the certificate stack's parameters are written, that read returns the website certificate's ARN and "CognitoCertArn" holds the auth certificate's ARN |
| Deployment.ReadFailsWithoutProducerRegion | lib/website-stack.ts:74-86 | if the certificate key was never written in us-east-1, then writing any parameters into the website's region (eu-west-1), the certificate stack's own included, leaves the read failing with ParameterNotFound |
| Deployment.SameAlternateNames | lib/certificate-stack.ts:26-30 | the certificate's SANs equal the distribution's aliases without the apex, so both stacks derive the same list |
| Deployment.CertificateCoversAliases | lib/certificate-stack.ts:33-41 | as a set, the names the website certificate covers equal the distribution's aliases |
| Deployment.ExampleComCertificate | lib/certificate-stack.ts:26-41 | for apex `example.com` with labels `www,blog`, the certificate covers exactly example.com, www.example.com and blog.example.com |
| Deployment.ExampleComRecords | lib/website-stack.ts:149-164 | for apex `example.com` with labels `www,blog`: an A record for example.com aliased to the distribution, then CNAMEs `wwwCnameRecord` for www.example.com and `blogCnameRecord` for blog.example.com, both pointing at example.com |

## Left out

- CDK and CloudFormation behaviour: construct-tree registration, synthesis, deployment and stack ordering. `bin/website.ts` declares no dependency between the stacks, so nothing orders them. `Deployment.CertificateHandoff` states what the read returns after the producer's writes. `Deployment.ReadFailsWithoutProducerRegion` states that writes into the website's region do not make it succeed.
- AWS service behaviour is not modelled: ACM DNS validation, the Route 53 zone lookup, the S3 bucket and its deployments, and the origin access identity. A certificate ARN is an opaque token named after its certificate's construct id. A hosted zone is identified by the domain it was looked up with. An A record declared without a `recordName` is at the zone's root.
- The `GetCertArn` custom resource's physical id comes from `Date.now()`, a clock, so it is left out, along with the IAM policy of that call. Only the address it reads is modelled.
- Descriptions and comments (`description`, `comment`, the OAI comment) are free text with no effect on the plan, so they are left out.
- The bucket's encryption, public-access block and index document are left out. They are constants handed to CDK.
- lib/lambdaedge-stack.ts is not part of this model. It declares a role, two functions, two versions and two parameters with constant names, and it computes nothing. The website stack does not read its parameters: it hard-codes a function version ARN, kept as `WebsiteStack.RedirectVersionArn`.
- A missing context value is not modelled; the model takes both context values as strings. In the source, a missing `san_domain_names` makes `san.split(',')` throw (lib/website-stack.ts:38-39, lib/certificate-stack.ts:26-27). No expression in the two stacks' own code throws on a missing `domain_name`: concatenation turns it into the text "undefined" in the SANs, the parameter name and the record names. What the CDK calls that receive it (`HostedZone.fromLookup`, `acm.Certificate`) do with it is left out with the rest of CDK behaviour.
- Whether SANs are distinct, whether labels are valid DNS labels, and whether construct ids are unique are not checked by the source. They appear only as preconditions (`WebsiteStack.CnameIdsDistinct`) or as conditional facts (`Domains.SansInjective`). For example, the labels `a.b,a.c` both give the construct id `aCnameRecord`. In the source, the second `CnameRecord` with that id clashes with the first in the construct tree, so synthesis fails and no second record exists. `WebsiteStack.DnsRecords` still returns both records: the model does not capture this failure, which belongs to the construct-tree registration left out above.
- The two stacks declare no DNS record for an identity-domain host and no Cognito user pool, so neither is modelled.
