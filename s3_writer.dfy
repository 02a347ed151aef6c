/** The S3 writer of the AWS S3 exporter: the RecalculateV4Signature round
    tripper, which re-signs a request after removing the headers a strict
    S3-compatible endpoint would otherwise reject, and newUploadManager,
    which turns the exporter's configuration into an upload manager wired
    to an S3 client. */
module S3Writer {
  import opened Wrappers
  import opened Http
  import opened AmzDate
  import opened Aws

  const AcceptEncoding := "Accept-Encoding"
  const ContentEncoding := "Content-Encoding"
  const StorageClassHeader := "X-Amz-Storage-Class"
  const ContentSha256Header := "X-Amz-Content-Sha256"
  const AmzDateHeader := "X-Amz-Date"

  /** The headers RoundTrip removes before it signs again. */
  const ResignedHeaders: set<string> :=
    {AcceptEncoding, ContentEncoding, StorageClassHeader, ContentSha256Header, AmzDateHeader}

  /** The service name every signature is computed for. */
  const SigningService := "s3"

  /** The one endpoint for which the compensation transport is installed. */
  const GcsEndpoint := "https://storage.googleapis.com"

  /** The header map RoundTrip hands to the signer: the entry map without
      the five re-signed headers, every other entry as it was. */
  function HeaderForSigning(entry: Header): (h: Header)
    ensures h.Keys == entry.Keys - ResignedHeaders
    ensures forall k :: k in h ==> h[k] == entry[k]
  {
    var h1 := Del(entry, AcceptEncoding);
    var h2 := Del(Del(Del(h1, ContentEncoding), StorageClassHeader), ContentSha256Header);
    Del(h2, AmzDateHeader)
  }

  /** The time the request is signed for: the entry X-Amz-Date, or the zero time. */
  function SigningTime(entry: Header): DateTime
  {
    ParseOrZero(Get(entry, AmzDateHeader))
  }

  /** The signer call RoundTrip makes for a request with entry headers and context ctx. */
  function SigningRequest(cfg: AwsConfig, entry: Header, ctx: Context): SignCall
  {
    SignCall(ctx, cfg.credentials.retrieve(ctx).credentials, HeaderForSigning(entry),
             GetPayloadHash(ctx), SigningService, cfg.region, SigningTime(entry))
  }

  /** The header map forwarded after signing: the signed map with the saved
      Accept-Encoding value put back as its only value. */
  function Forwarded(signed: Header, entry: Header): Header
  {
    Set(signed, AcceptEncoding, Get(entry, AcceptEncoding))
  }

  /** A well-formed X-Amz-Date on entry is the signing time. */
  lemma SigningTimeFromHeader(entry: Header, d: DateTime)
    requires Valid(d)
    requires AmzDateHeader in entry && |entry[AmzDateHeader]| > 0
    requires entry[AmzDateHeader][0] == Format(d)
    ensures SigningTime(entry) == d
  {
    ParseFormat(d);
  }

  /** Without an X-Amz-Date header the request is signed for the zero time. */
  lemma SigningTimeWithoutHeader(entry: Header)
    requires AmzDateHeader !in entry
    ensures SigningTime(entry) == ZeroTime
  {
    ParseEmpty();
  }

  /** A malformed X-Amz-Date header does not stop signing: the zero time is used. */
  lemma SigningTimeMalformedHeader(entry: Header)
    requires Parse(Get(entry, AmzDateHeader)).None?
    ensures SigningTime(entry) == ZeroTime
  {
  }

  /** The forwarded Accept-Encoding is exactly one value: the first entry
      value, further values dropped, or "" when the header was absent or had
      no values. The
      signer's own Accept-Encoding, if any, is overwritten; every other
      header is as the signer left it. */
  lemma ForwardedAcceptEncoding(signed: Header, entry: Header)
    ensures var f := Forwarded(signed, entry);
            && AcceptEncoding in f
            && (AcceptEncoding in entry && |entry[AcceptEncoding]| > 0 ==> f[AcceptEncoding] == [entry[AcceptEncoding][0]])
            && (!(AcceptEncoding in entry && |entry[AcceptEncoding]| > 0) ==> f[AcceptEncoding] == [""])
            && f.Keys == signed.Keys + {AcceptEncoding}
            && forall k :: k in signed && k != AcceptEncoding ==> f[k] == signed[k]
  {
  }

  /** A single Accept-Encoding value on entry is the value the next transport sees. */
  lemma AcceptEncodingRoundTrip(signed: Header, entry: Header, v: string)
    requires AcceptEncoding in entry && entry[AcceptEncoding] == [v]
    ensures Forwarded(signed, entry)[AcceptEncoding] == entry[AcceptEncoding]
  {
  }

  /** The round tripper installed for endpoints that check the signature
      against the headers they receive. Its fields are never reassigned. */
  class RecalculateV4Signature {
    const next: RoundTripper
    const signer: Signer
    const cfg: AwsConfig

    constructor (next: RoundTripper, signer: Signer, cfg: AwsConfig)
      ensures this.next == next && this.signer == signer && this.cfg == cfg
    {
      this.next := next;
      this.signer := signer;
      this.cfg := cfg;
    }

    /** Saves and removes Accept-Encoding, removes the headers of the stale
        signature, signs for service "s3" in the configured region at the
        entry X-Amz-Date, then puts Accept-Encoding back and forwards the
        request. A signing error is returned at once: nothing is forwarded
        and Accept-Encoding stays removed. */
    method RoundTrip(req: Request) returns (resp: Option<Response>, err: Option<Error>)
      modifies req, signer, next
      ensures signer.calls == old(signer.calls) + [SigningRequest(cfg, old(req.header), req.ctx)]
      ensures var outcome := signer.sign(SigningRequest(cfg, old(req.header), req.ctx));
              outcome.err.Some? ==>
                && resp == None && err == outcome.err
                && req.header == outcome.header
                && next.received == old(next.received)
      ensures var outcome := signer.sign(SigningRequest(cfg, old(req.header), req.ctx));
              outcome.err.None? ==>
                && req.header == Forwarded(outcome.header, old(req.header))
                && next.received == old(next.received) + [req.header]
                && RoundTripResult(resp, err) == next.reply(req.header, req.ctx)
    {
      ghost var entry := req.header;
      var val := Get(req.header, AcceptEncoding);
      req.header := Del(req.header, AcceptEncoding);

      req.header := Del(req.header, ContentEncoding);
      req.header := Del(req.header, StorageClassHeader);
      req.header := Del(req.header, ContentSha256Header);

      var timeString := Get(req.header, AmzDateHeader);
      req.header := Del(req.header, AmzDateHeader);

      var timeDate := ParseOrZero(timeString);
      var retrieved := cfg.credentials.retrieve(req.ctx);
      var creds := retrieved.credentials;
      assert req.header == HeaderForSigning(entry);
      assert timeDate == SigningTime(entry);
      var signErr := signer.SignHTTP(req.ctx, creds, req, GetPayloadHash(req.ctx), SigningService, cfg.region, timeDate);
      if signErr.Some? {
        return None, signErr;
      }
      req.header := Set(req.header, AcceptEncoding, val);
      resp, err := next.RoundTrip(req);
    }
  }

  /** The S3Uploader section of the exporter's configuration, as far as it is read here. */
  datatype S3UploaderConfig = S3UploaderConfig(
    region: string,
    s3Bucket: string,
    s3Prefix: string,
    s3Partition: string,
    filePrefix: string,
    endpoint: string,
    roleArn: string,
    s3ForcePathStyle: bool,
    disableSsl: bool,
    compression: string,
    storageClass: string)

  datatype Config = Config(s3Uploader: S3UploaderConfig)

  /** upload.PartitionKeyBuilder's fields; how it derives keys is not part of this model. */
  datatype PartitionKeyBuilder = PartitionKeyBuilder(
    partitionPrefix: string,
    partitionTruncation: string,
    filePrefix: string,
    metadata: string,
    fileFormat: string,
    compression: string)

  /** The S3 client s3.NewFromConfig builds: the config it was given and its closures. */
  datatype S3Client = S3Client(config: AwsConfig, optFns: seq<S3OptionFn>)

  /** The arguments upload.NewS3Manager receives. */
  datatype UploadManager = S3Manager(
    bucket: string,
    builder: PartitionKeyBuilder,
    client: S3Client,
    storageClass: string)

  /** The options the client ends up with once its closures have run. */
  function ClientOptions(c: S3Client): S3Options
  {
    NewFromConfig(c.config, c.optFns)
  }

  /** The closures newUploadManager passes to s3.NewFromConfig, in order:
      addressing always, then the endpoint, the role and the endpoint again,
      each when its setting is non-empty. */
  function WriterOptionFns(u: S3UploaderConfig): seq<S3OptionFn>
  {
    [ConfigureAddressing(u.disableSsl, u.s3ForcePathStyle)]
    + (if u.endpoint != "" then [SetBaseEndpoint(u.endpoint)] else [])
    + (if u.roleArn != "" then [AssumeRole(u.roleArn)] else [])
    + (if u.endpoint != "" then [SetBaseEndpoint(u.endpoint)] else [])
  }

  /** What the writer's closures make of the client options: DisableHTTPS and
      UsePathStyle copy their flags; BaseEndpoint is the endpoint when one is
      set and the config's otherwise; the credentials assume the role over
      the config passed to s3.NewFromConfig when a role is set and are the
      config's otherwise; the rest comes from the config. */
  lemma {:induction false} WriterOptionsResolve(cfg: AwsConfig, u: S3UploaderConfig)
    ensures var o := NewFromConfig(cfg, WriterOptionFns(u));
            && o.endpointOptions == EndpointResolverOptions(u.disableSsl, false, false)
            && o.usePathStyle == u.s3ForcePathStyle
            && (u.endpoint != "" ==> o.baseEndpoint == Some(u.endpoint))
            && (u.endpoint == "" ==> o.baseEndpoint == cfg.baseEndpoint)
            && (u.roleArn != "" ==> o.credentials == AssumeRoleCredentials(cfg, u.roleArn))
            && (u.roleArn == "" ==> o.credentials == ConfigCredentials(cfg.credentials))
            && o.region == cfg.region
            && o.httpClient == cfg.httpClient
            && o.requestChecksumCalculation == cfg.requestChecksumCalculation
  {
    var fns := WriterOptionFns(u);
    var e := if u.endpoint != "" then [SetBaseEndpoint(u.endpoint)] else [];
    var a := if u.roleArn != "" then [AssumeRole(u.roleArn)] else [];
    var first := [ConfigureAddressing(u.disableSsl, u.s3ForcePathStyle)];
    assert fns == first + e + a + e;
    ApplyAllAppend(DefaultOptions(cfg), first + e + a, e, cfg);
    ApplyAllAppend(DefaultOptions(cfg), first + e, a, cfg);
    ApplyAllAppend(DefaultOptions(cfg), first, e, cfg);
  }

  /** The second BaseEndpoint closure changes nothing: the options are the
      same without it. */
  lemma {:induction false} SecondBaseEndpointRedundant(cfg: AwsConfig, u: S3UploaderConfig)
    requires u.endpoint != ""
    ensures NewFromConfig(cfg, WriterOptionFns(u))
         == NewFromConfig(cfg, WriterOptionFns(u)[..|WriterOptionFns(u)| - 1])
  {
    var fns := WriterOptionFns(u);
    var init := fns[..|fns| - 1];
    assert fns == init + [SetBaseEndpoint(u.endpoint)];
    ApplyAllAppend(DefaultOptions(cfg), init, [SetBaseEndpoint(u.endpoint)], cfg);
    WriterOptionsResolve(cfg, u);
    var o := ApplyAll(DefaultOptions(cfg), init, cfg);
    var a := if u.roleArn != "" then [AssumeRole(u.roleArn)] else [];
    var first := [ConfigureAddressing(u.disableSsl, u.s3ForcePathStyle)];
    assert init == first + [SetBaseEndpoint(u.endpoint)] + a;
    ApplyAllAppend(DefaultOptions(cfg), first + [SetBaseEndpoint(u.endpoint)], a, cfg);
    ApplyAllAppend(DefaultOptions(cfg), first, [SetBaseEndpoint(u.endpoint)], cfg);
    assert o.baseEndpoint == Some(u.endpoint);
  }

  /** newUploadManager. loadDefaultConfig stands for config.LoadDefaultConfig
      with the call's context; its error is returned with no manager. */
  method NewUploadManager(conf: Config, metadata: string, format: string,
                          loadDefaultConfig: seq<LoadOption> -> Result<AwsConfig, Error>)
    returns (r: Result<UploadManager, Error>)
    ensures var u := conf.s3Uploader;
            var loaded := loadDefaultConfig(if u.region != "" then [WithRegion(u.region)] else []);
            && (loaded.Failure? ==> r == Failure(loaded.error))
            && (loaded.Success? ==> r.Success?)
    ensures r.Success? ==>
              var u := conf.s3Uploader;
              var m := r.value;
              && m.bucket == u.s3Bucket
              && m.builder == PartitionKeyBuilder(u.s3Prefix, u.s3Partition, u.filePrefix, metadata, format, u.compression)
              && m.storageClass == u.storageClass
              && m.client.optFns == WriterOptionFns(u)
    ensures r.Success? ==>
              var u := conf.s3Uploader;
              var loaded := loadDefaultConfig(if u.region != "" then [WithRegion(u.region)] else []).value;
              var compensation := Client(RecalculateV4SignatureTransport(DefaultTransport, loaded));
              var c := r.value.client.config;
              && (c.httpClient == compensation <==> u.endpoint == GcsEndpoint)
              && (u.endpoint == GcsEndpoint ==> c == loaded.(httpClient := compensation, requestChecksumCalculation := WhenRequired))
              && (u.endpoint != GcsEndpoint ==> c == loaded)
    ensures r.Success? ==>
              var u := conf.s3Uploader;
              var loaded := loadDefaultConfig(if u.region != "" then [WithRegion(u.region)] else []).value;
              var o := ClientOptions(r.value.client);
              && o.endpointOptions.disableHttps == u.disableSsl
              && o.usePathStyle == u.s3ForcePathStyle
              && (u.endpoint != "" ==> o.baseEndpoint == Some(u.endpoint))
              && (u.endpoint == "" ==> o.baseEndpoint == loaded.baseEndpoint)
              && (u.roleArn != "" ==> o.credentials == AssumeRoleCredentials(r.value.client.config, u.roleArn))
              && (u.roleArn == "" ==> o.credentials == ConfigCredentials(loaded.credentials))
              && o.httpClient == r.value.client.config.httpClient
  {
    var u := conf.s3Uploader;
    var configOpts: seq<LoadOption> := [];
    var region := u.region;
    if region != "" {
      configOpts := configOpts + [WithRegion(region)];
    }
    assert configOpts == if u.region != "" then [WithRegion(u.region)] else [];

    var loaded := loadDefaultConfig(configOpts);
    if loaded.Failure? {
      return Failure(loaded.error);
    }
    var cfg := loaded.value;
    ghost var loadedCfg := cfg;

    var s3Opts := [ConfigureAddressing(u.disableSsl, u.s3ForcePathStyle)];
    if u.endpoint != "" {
      s3Opts := s3Opts + [SetBaseEndpoint(u.endpoint)];
    }
    var arn := u.roleArn;
    if arn != "" {
      s3Opts := s3Opts + [AssumeRole(arn)];
    }
    var endpoint := u.endpoint;
    if endpoint != "" {
      s3Opts := s3Opts + [SetBaseEndpoint(endpoint)];
    }
    assert s3Opts == WriterOptionFns(u);

    if endpoint == GcsEndpoint {
      cfg := cfg.(httpClient := Client(RecalculateV4SignatureTransport(DefaultTransport, cfg)));
      cfg := cfg.(requestChecksumCalculation := WhenRequired);
    }

    var builder := PartitionKeyBuilder(u.s3Prefix, u.s3Partition, u.filePrefix, metadata, format, u.compression);
    r := Success(S3Manager(u.s3Bucket, builder, S3Client(cfg, s3Opts), u.storageClass));
    WriterOptionsResolve(cfg, u);
  }
}
