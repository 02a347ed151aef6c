# S3 writer of the AWS S3 exporter, in Dafny

This project models `exporter/awss3exporter/s3_writer.go` of the
OpenTelemetry Collector contrib repository. The file holds two pieces of logic.

- **`RecalculateV4Signature.RoundTrip`** is an HTTP round tripper installed for
  Google Cloud Storage's S3-compatible endpoint. That endpoint checks the SigV4
  signature against the headers it actually receives. The round tripper saves
  and removes `Accept-Encoding`. It removes `Content-Encoding`,
  `X-Amz-Storage-Class`, `X-Amz-Content-Sha256` and `X-Amz-Date`, and re-signs
  the request for service `s3` in the configured region. The signing time is
  the parsed entry `X-Amz-Date`, or Go's zero time when parsing fails. It then
  puts `Accept-Encoding` back and forwards the request.
- **`newUploadManager`** turns the exporter configuration into an upload
  manager. It builds the `config.LoadOptions` and `s3.Options` closure lists. It
  installs the compensation transport and `RequestChecksumCalculationWhenRequired`
  only for the endpoint `https://storage.googleapis.com`. It copies the
  partition-key fields and the storage class verbatim.

Modules:

- `Wrappers` (`wrappers.dfy`): Option and Result.
- `Http` (`http.dfy`): net/http in miniature.
  - The header map with Go's `Get`, `Del` and `Set`.
  - A `Request` class whose header map is rewritten in place.
  - A `RoundTripper` class standing for the next transport. Its `reply`
    function is its unknown behaviour. Its `received` log records every header
    map it was handed.
- `AmzDate` (`amz_date.dfy`): the SigV4 timestamp format. This is the ISO 8601
  basic-format UTC date-time of ISO 8601:2004 section 4.3.2, Go layout
  `20060102T150405Z`. It has a strict `Parse` and its inverse `Format`.
- `Aws` (`aws.dfy`): stand-ins for the AWS SDK for Go v2.
  - `aws.Config` reduced to the fields used here.
  - A `Signer` class. Its `sign` function is the opaque SigV4 algorithm: it may
    rewrite the header map and may fail. Its `calls` log records every call.
  - Credential providers as functions of the request context.
  - The `s3.Options` closures as a datatype, and `s3.NewFromConfig` as a fold
    of those closures over an options record.
- `S3Writer` (`s3_writer.dfy`): the file itself.
  - The `RecalculateV4Signature` class and its `RoundTrip` method.
  - The `NewUploadManager` method.
  - The specification functions and lemmas they are proved against.

Go closures capture variables, not values, and the model keeps that. The
composite literal at s3_writer.go:104-108 copies `cfg` by value before
`HTTPClient` and the checksum mode are assigned. So the compensation transport
holds the config exactly as loaded. The assume-role closure at
s3_writer.go:89-91 reads `cfg` only when `s3.NewFromConfig` runs it. So its STS
client is built from the final config, which includes the compensation client
on the GCS endpoint. One consequence follows from `NewUploadManager`'s
contract: with both a role ARN and the GCS endpoint, the S3 client's own
credentials assume the role. The compensation transport still re-signs with the
loaded config's credentials.

Two behaviours of the code are worth stating plainly.

- A credential-retrieval error is discarded (`creds, _ :=`, s3_writer.go:44)
  and signing proceeds with whatever credentials were returned.
- `Accept-Encoding` survives unchanged only when it has one value
  (`AcceptEncodingRoundTrip`). Extra values are dropped. A header that is
  absent, or present with no values, is forwarded as `[""]`
  (`ForwardedAcceptEncoding`).

## Model

| member | source | states |
|---|---|---|
| `S3Writer.RecalculateV4Signature.RoundTrip` | exporter/awss3exporter/s3_writer.go:32-54 | The signer is called exactly once with: the request's context, the retrieved credentials (whatever error retrieval reported), the entry headers minus the five re-signed ones, the context's payload hash, service "s3", the configured region, and the signing time. On a signing error it returns (nil, err), forwards nothing and leaves the headers as the signer left them, without Accept-Encoding restored. Otherwise it forwards exactly once the signed headers with Accept-Encoding restored, and returns the next transport's response and error unchanged. |
| `S3Writer.HeaderForSigning` | exporter/awss3exporter/s3_writer.go:33-41 | The header map handed to the signer has exactly the entry keys minus Accept-Encoding, Content-Encoding, X-Amz-Storage-Class, X-Amz-Content-Sha256 and X-Amz-Date. Every remaining entry keeps its entry value. |
| `S3Writer.SigningTimeFromHeader` | exporter/awss3exporter/s3_writer.go:40-43 | A valid date-time written in the layout as the first X-Amz-Date value is exactly the signing time. |
| `S3Writer.SigningTimeWithoutHeader` | exporter/awss3exporter/s3_writer.go:40-43 | An absent X-Amz-Date reads as "", which fails to parse, so the request is signed for the zero time. |
| `S3Writer.SigningTimeMalformedHeader` | exporter/awss3exporter/s3_writer.go:43-45 | Any X-Amz-Date that fails to parse yields the zero time, and signing proceeds. |
| `S3Writer.ForwardedAcceptEncoding` | exporter/awss3exporter/s3_writer.go:33-49 | The forwarded Accept-Encoding has exactly one value. It is the first entry value, or "" when the header was absent or had no values. It overrides any Accept-Encoding the signer set. Every other header is as the signer left it. |
| `S3Writer.AcceptEncodingRoundTrip` | exporter/awss3exporter/s3_writer.go:33-49 | A single-valued Accept-Encoding on entry reaches the next transport unchanged. |
| `Aws.Signer.SignHTTP` | exporter/awss3exporter/s3_writer.go:45 | Logs its call with the request's context and the header map as it was when signing began. Leaves the header map and returns the error that the opaque SigV4 function gives for that call. |
| `Http.RoundTripper.RoundTrip` | exporter/awss3exporter/s3_writer.go:53 | Logs the header map it is handed and returns its reply to it. |
| `Http.Del` | exporter/awss3exporter/s3_writer.go:34-41 | Header.Del: the key is absent afterwards and every other entry is untouched. |
| `Http.Set` | exporter/awss3exporter/s3_writer.go:49 | Header.Set: the key has exactly the one given value and every other entry is untouched. |
| `AmzDate.Parse` | exporter/awss3exporter/s3_writer.go:43 | An accepted string has the layout's shape, and what it yields is in range: month, day of that month (leap years included), hour, minute, second. |
| `AmzDate.ParseOrZero` | exporter/awss3exporter/s3_writer.go:43 | Always a valid date-time: the parse when it succeeds (the zero time otherwise). |
| `AmzDate.ParseOfFormat` | exporter/awss3exporter/s3_writer.go:43 | Parse reads back every formatted date-time whose fields fit their widths, and accepts it exactly when it is in range. |
| `AmzDate.ParseFormat` | exporter/awss3exporter/s3_writer.go:43 | Round trip: parsing the formatting of a valid date-time gives it back. |
| `AmzDate.FormatParse` | exporter/awss3exporter/s3_writer.go:43 | Round trip the other way: every accepted string is exactly the formatting of what it parses to. |
| `AmzDate.ParseEmpty` | exporter/awss3exporter/s3_writer.go:40-43 | The empty string fails to parse and falls back to the zero time. |
| `AmzDate.ParseExample` | exporter/awss3exporter/s3_writer.go:43 | "20240101T101500Z" reads as 2024-01-01 10:15:00 UTC. |
| `AmzDate.ParseRejectsDayOutOfRange` | exporter/awss3exporter/s3_writer.go:43 | "20240230T000000Z" is rejected: February 2024 has 29 days. |
| `AmzDate.ParseRejectsHourOutOfRange` | exporter/awss3exporter/s3_writer.go:43 | "20240101T240000Z" is rejected: hour 24 is out of range. |
| `AmzDate.DecimalValueOfDecimal` | exporter/awss3exporter/s3_writer.go:43 | A number below 10^width, written zero-padded in width digits, reads back as itself. |
| `AmzDate.DecimalOfDecimalValue` | exporter/awss3exporter/s3_writer.go:43 | A digit string's value is below 10^length, and writing that value back in that many digits gives the string again. |
| `S3Writer.NewUploadManager` | exporter/awss3exporter/s3_writer.go:56-126 | The region option is passed iff the region is non-empty. A load error is returned with no manager. Bucket, partition-key fields (including metadata and format) and storage class are copied verbatim. The closures are those of `WriterOptionFns`, in order. The compensation client (next = DefaultTransport, holding the config as loaded) is installed iff the endpoint is exactly "https://storage.googleapis.com". On that endpoint, and only there, the checksum mode becomes WhenRequired; on any other endpoint the config is used as loaded. The resolved options are: DisableHTTPS and UsePathStyle copied, BaseEndpoint equal to the endpoint when it is non-empty, and assume-role credentials when the role ARN is non-empty. |
| `S3Writer.WriterOptionsResolve` | exporter/awss3exporter/s3_writer.go:73-98 | After the closures run: EndpointOptions holds only DisableHTTPS, and the config's dual-stack and FIPS flags are reset. UsePathStyle is the flag. BaseEndpoint is the endpoint iff it is non-empty, the config's otherwise. Credentials assume the role over the passed config iff the ARN is non-empty, the config's otherwise. Region, HTTP client and checksum mode come from the config. |
| `S3Writer.SecondBaseEndpointRedundant` | exporter/awss3exporter/s3_writer.go:82-98 | Dropping the second BaseEndpoint closure leaves the resolved options unchanged. |
| `Aws.ApplyAllAppend` | exporter/awss3exporter/s3_writer.go:123 | Running a concatenation of closure lists runs the first list, then the second. |
| `Aws.SetBaseEndpointIdempotent` | exporter/awss3exporter/s3_writer.go:82-98 | Setting BaseEndpoint twice to the same value has the effect of setting it once. |
| `Aws.BaseEndpointCommutesWithAssumeRole` | exporter/awss3exporter/s3_writer.go:82-92 | The BaseEndpoint and assume-role closures commute. |

## Left out

- `AmzDate.Parse`: rejects inputs with a fractional second before `Z` (such as `20060102T150405.5Z`), which Go's `time.Parse` accepts for this layout. The other leniencies of `time.Parse` are also not modelled. The one-digit hour it allows can never succeed with this layout, because the minute digits follow directly.
- `Aws.DefaultOptions`: a simplified stand-in for how `s3.NewFromConfig` derives its initial options from an `aws.Config`. Only the fields the writer sets or reads are kept.
- The debug output at s3_writer.go:50-52 (`fmt.Println`, `httputil.DumpRequest`) is I/O whose errors are discarded. It does not affect the request.
- The AWS SDK internals are foreign code and are opaque parameters: `config.LoadDefaultConfig`, `s3.NewFromConfig`, `stscreds`/`sts`, `v4.NewSigner`, the SigV4 algorithm inside `SignHTTP`, and `v4.GetPayloadHash` (the context's stored hash).
- The request's method, URL and body are not modelled. The signer and the next transport see the request's context and header map, and the context stands for everything else that identifies the request.
- Header-key canonicalisation (`net/textproto`). All keys are taken as already canonical.
- Go panics on a nil header map or a nil credentials provider are not modelled. The model always has a map and a provider.
- Real network transport (`http.DefaultTransport` appears only as a name in the wiring), context cancellation, credential refresh, and concurrent use of the round tripper.
- `upload.PartitionKeyBuilder` key derivation, `upload.NewS3Manager` behaviour and the manager's per-call upload: `internal/upload` is not part of this model. The manager is the record of the arguments it is built from.
