/** Stand-ins for the parts of the AWS SDK for Go v2 that s3_writer.go
    wires together. Their internals are not modelled: the credential chain
    and the SigV4 algorithm are function-valued parameters, and s3.Options
    is reduced to the fields the writer sets or reads. */
module Aws {
  import opened Wrappers
  import opened Http
  import opened AmzDate

  datatype Credentials = Credentials(accessKeyId: string, secretAccessKey: string, sessionToken: string)

  /** The pair `creds, err` that CredentialsProvider.Retrieve returns. */
  datatype Retrieved = Retrieved(credentials: Credentials, err: Option<Error>)

  /** aws.CredentialsProvider: what Retrieve answers for a request context. */
  datatype CredentialsProvider = CredentialsProvider(retrieve: Context -> Retrieved)

  /** aws.RequestChecksumCalculation. */
  datatype ChecksumCalculation = ChecksumUnset | WhenSupported | WhenRequired

  /** The HTTP client an aws.Config carries: the SDK's own, or an
      http.Client built around a given transport. */
  datatype HttpClient = SdkHttpClient | Client(transport: Transport)

  /** The transports this package can put under an http.Client:
      http.DefaultTransport, or a RecalculateV4Signature literal with its
      next transport and the aws.Config value it copies (its signer is
      always a fresh v4.NewSigner()). An installed
      RecalculateV4SignatureTransport(next, cfg) behaves as the method
      S3Writer.RecalculateV4Signature.RoundTrip of an object holding that cfg
      and a transport behaving as next. */
  datatype Transport =
    | DefaultTransport
    | RecalculateV4SignatureTransport(next: Transport, cfg: AwsConfig)

  /** aws.Config, reduced to the fields the writer or s3.NewFromConfig uses. */
  datatype AwsConfig = AwsConfig(
    region: string,
    credentials: CredentialsProvider,
    httpClient: HttpClient,
    requestChecksumCalculation: ChecksumCalculation,
    baseEndpoint: Option<string>,
    useDualStackEndpoint: bool,
    useFipsEndpoint: bool)

  /** The config.LoadOptions closures the writer builds. */
  datatype LoadOption = WithRegion(region: string)

  /** One call of Signer.SignHTTP, with the header map as it stood when signing began. */
  datatype SignCall = SignCall(
    ctx: Context,
    credentials: Credentials,
    header: Header,
    payloadHash: string,
    service: string,
    region: string,
    signingTime: DateTime)

  /** What SignHTTP leaves in the request's header map, and the error it returns. */
  datatype SignOutcome = SignOutcome(header: Header, err: Option<Error>)

  /** A stand-in for *v4.Signer: sign is the SigV4 algorithm, opaque here (it
      may add or replace headers and may fail), and calls logs every call. */
  class Signer {
    const sign: SignCall -> SignOutcome
    var calls: seq<SignCall>

    constructor (sign: SignCall -> SignOutcome)
      ensures this.sign == sign && calls == []
    {
      this.sign := sign;
      calls := [];
    }

    method SignHTTP(ctx: Context, credentials: Credentials, req: Request, payloadHash: string,
                    service: string, region: string, signingTime: DateTime)
      returns (err: Option<Error>)
      modifies this, req
      ensures calls == old(calls) + [SignCall(ctx, credentials, old(req.header), payloadHash, service, region, signingTime)]
      ensures var outcome := sign(calls[|calls| - 1]);
              req.header == outcome.header && err == outcome.err
    {
      var call := SignCall(ctx, credentials, req.header, payloadHash, service, region, signingTime);
      calls := calls + [call];
      var outcome := sign(call);
      req.header := outcome.header;
      err := outcome.err;
    }
  }

  /** v4.GetPayloadHash: the payload hash the signing middleware stored in the context. */
  function GetPayloadHash(ctx: Context): string
  {
    ctx.payloadHash
  }

  /** s3.EndpointResolverOptions, reduced to the fields set from configuration. */
  datatype EndpointResolverOptions = EndpointResolverOptions(
    disableHttps: bool,
    useDualStackEndpoint: bool,
    useFipsEndpoint: bool)

  /** The credentials an S3 client signs with: the config's provider, or an
      stscreds.AssumeRoleProvider over an STS client built from stsConfig. */
  datatype ClientCredentials =
    | ConfigCredentials(provider: CredentialsProvider)
    | AssumeRoleCredentials(stsConfig: AwsConfig, roleArn: string)

  /** s3.Options, reduced. */
  datatype S3Options = S3Options(
    region: string,
    credentials: ClientCredentials,
    httpClient: HttpClient,
    requestChecksumCalculation: ChecksumCalculation,
    baseEndpoint: Option<string>,
    usePathStyle: bool,
    endpointOptions: EndpointResolverOptions)

  /** The func(*s3.Options) closures the writer builds. */
  datatype S3OptionFn =
      /** Replaces EndpointOptions by a literal with only DisableHTTPS set, and sets UsePathStyle. */
    | ConfigureAddressing(disableHttps: bool, usePathStyle: bool)
      /** Sets BaseEndpoint. */
    | SetBaseEndpoint(endpoint: string)
      /** Sets Credentials to an assume-role provider over sts.NewFromConfig(cfg). */
    | AssumeRole(roleArn: string)

  /** The options s3.NewFromConfig starts from before it runs the closures. */
  function DefaultOptions(cfg: AwsConfig): S3Options
  {
    S3Options(cfg.region, ConfigCredentials(cfg.credentials), cfg.httpClient,
              cfg.requestChecksumCalculation, cfg.baseEndpoint, false,
              EndpointResolverOptions(false, cfg.useDualStackEndpoint, cfg.useFipsEndpoint))
  }

  /** Runs one closure. captured is the value of the writer's variable cfg
      when the closure runs, which the assume-role closure reads. */
  function Apply(o: S3Options, fn: S3OptionFn, captured: AwsConfig): S3Options
  {
    match fn
    case ConfigureAddressing(disableHttps, usePathStyle) =>
      o.(endpointOptions := EndpointResolverOptions(disableHttps, false, false), usePathStyle := usePathStyle)
    case SetBaseEndpoint(endpoint) =>
      o.(baseEndpoint := Some(endpoint))
    case AssumeRole(roleArn) =>
      o.(credentials := AssumeRoleCredentials(captured, roleArn))
  }

  /** Runs the closures in order, as s3.NewFromConfig does. */
  function ApplyAll(o: S3Options, fns: seq<S3OptionFn>, captured: AwsConfig): S3Options
    decreases |fns|
  {
    if fns == [] then o else ApplyAll(Apply(o, fns[0], captured), fns[1..], captured)
  }

  /** The options of s3.NewFromConfig(cfg, fns...). The writer's closures
      capture the same variable cfg it passes, so they see that value. */
  function NewFromConfig(cfg: AwsConfig, fns: seq<S3OptionFn>): S3Options
  {
    ApplyAll(DefaultOptions(cfg), fns, cfg)
  }

  /** Running a concatenation runs the first list, then the second. */
  lemma {:induction false} ApplyAllAppend(o: S3Options, a: seq<S3OptionFn>, b: seq<S3OptionFn>, captured: AwsConfig)
    ensures ApplyAll(o, a + b, captured) == ApplyAll(ApplyAll(o, a, captured), b, captured)
    decreases |a|
  {
    if a != [] {
      assert (a + b)[1..] == a[1..] + b;
      ApplyAllAppend(Apply(o, a[0], captured), a[1..], b, captured);
    } else {
      assert a + b == b;
    }
  }

  /** A SetBaseEndpoint applied twice with the same value has the effect of one. */
  lemma SetBaseEndpointIdempotent(o: S3Options, endpoint: string, captured: AwsConfig)
    ensures var once := Apply(o, SetBaseEndpoint(endpoint), captured);
            Apply(once, SetBaseEndpoint(endpoint), captured) == once
  {
  }

  /** Closures that touch different fields commute. */
  lemma BaseEndpointCommutesWithAssumeRole(o: S3Options, endpoint: string, roleArn: string, captured: AwsConfig)
    ensures ApplyAll(o, [SetBaseEndpoint(endpoint), AssumeRole(roleArn)], captured)
         == ApplyAll(o, [AssumeRole(roleArn), SetBaseEndpoint(endpoint)], captured)
  {
  }
}
