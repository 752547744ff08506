/**
 * The top-level provider factory: the same tag switch, but an unknown tag
 * throws a plain `Error`, not an `AppError`.
 */
module RootGetProvider {
  import opened Wrappers
  import opened AppErrors
  import opened ProviderTags

  /** `getProvider`: the provider for the tag, or a plain error naming it. */
  function GetProvider(provider: string): (r: Result<ProviderKind, Thrown>)
    ensures r.Ok? <==> ParseKind(provider).Some?
    ensures r.Ok? ==> r.value == ParseKind(provider).value
    ensures r.Err? ==> r.error.PlainError? && Contains(r.error.message, provider)
  {
    match ParseKind(provider)
    case Some(kind) => Ok(kind)
    case None => Err(PlainError(InvalidProviderMessage(provider)))
  }

  /** The decision depends on the lower-cased tag only. */
  lemma GetProviderIgnoresCase(provider: string)
    ensures GetProvider(provider).Ok? ==> GetProvider(provider) == GetProvider(Lower(provider))
    ensures GetProvider("Nfs") == Ok(NFS) && GetProvider("s3") == Ok(S3) && GetProvider("ftp").Err?
  {
    ParseKindLower(provider);
    ParseKindNfs("Nfs");
    ParseKindS3("s3");
    ParseKindNfs("ftp");
    ParseKindS3("ftp");
  }
}
