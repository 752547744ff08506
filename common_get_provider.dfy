/**
 * The provider factory of the common providers directory: a tag selects the
 * NFS or the S3 provider, and an unknown tag or an unknown configuration key
 * throws a non-trusted `AppError` with status 500.
 */
module CommonGetProvider {
  import opened Wrappers
  import opened AppErrors
  import opened ProviderTags
  import ErrorTypes

  /** The two provider configurations the configuration store holds. */
  datatype ProviderConfig =
    | S3Config(accessKeyId: string, secretAccessKey: string, endpointUrl: string, bucket: string,
               region: string, sslEnabled: bool, forcePathStyle: bool, maxAttempts: int, sigVersion: string)
    | NFSConfig(pvPath: string)

  /** What both functions throw: status 500, not trusted, naming the input. */
  function InvalidProvider(provider: string): Thrown
  {
    AppError(ErrorTypes.INTERNAL_SERVER_ERROR, InvalidProviderMessage(provider), false)
  }

  /** `getProvider`: the provider for the tag, or the non-trusted 500 error. */
  function GetProvider(provider: string): (r: Result<ProviderKind, Thrown>)
    ensures r.Ok? <==> ParseKind(provider).Some?
    ensures r.Ok? ==> r.value == ParseKind(provider).value
    ensures r.Err? ==> r.error.AppError? && r.error.status == ErrorTypes.INTERNAL_SERVER_ERROR && !r.error.isTrusted
    ensures r.Err? ==> Contains(r.error.message, provider) && Contains(r.error.message, "\"nfs\"")
                       && Contains(r.error.message, "\"s3\"")
  {
    match ParseKind(provider)
    case Some(kind) => Ok(kind)
    case None => Err(InvalidProvider(provider))
  }

  /**
   * `getProviderConfig`: the configuration stored under `provider`, or the
   * same non-trusted 500 error when the lookup throws.
   */
  function GetProviderConfig(config: map<string, ProviderConfig>, provider: string): (r: Result<ProviderConfig, Thrown>)
    ensures r.Ok? <==> provider in config
    ensures r.Ok? ==> r.value == config[provider]
    ensures r.Err? ==> r.error == InvalidProvider(provider)
  {
    if provider in config then Ok(config[provider]) else Err(InvalidProvider(provider))
  }

  /** Any casing of a tag selects the same provider as the lower-case tag. */
  lemma GetProviderIgnoresCase(provider: string)
    ensures GetProvider(provider).Ok? ==> GetProvider(provider) == GetProvider(Lower(provider))
    ensures GetProvider("NFS") == Ok(NFS) && GetProvider("nFs") == Ok(NFS) && GetProvider("S3") == Ok(S3)
  {
    ParseKindLower(provider);
    ParseKindNfs("NFS");
    ParseKindNfs("nFs");
    ParseKindS3("S3");
  }
}
