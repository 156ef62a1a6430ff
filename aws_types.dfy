/** The values that the VPN attachment resource exchanges with the AWS SDK for Go
    and with the provider's error helpers: nilable pointers, the Network Manager
    records, the SDK replies, the error values, and the two error tests that the
    resource takes from packages outside this model. */
module AwsTypes {

  /** A Go pointer or interface that may be nil. */
  datatype Option<+T> = None | Some(value: T)

  /** aws.StringValue: the string a `*string` points to, or "" for nil. */
  function StringValue(s: Option<string>): string
  {
    match s
    case Some(v) => v
    case None => ""
  }

  // AttachmentState values of the Network Manager API, as the SDK spells them.
  const Creating: string := "CREATING"
  const PendingNetworkUpdate: string := "PENDING_NETWORK_UPDATE"
  const PendingAttachmentAcceptance: string := "PENDING_ATTACHMENT_ACCEPTANCE"
  const PendingTagAcceptance: string := "PENDING_TAG_ACCEPTANCE"
  const Available: string := "AVAILABLE"
  const Deleting: string := "DELETING"

  /** The error code networkmanager.ErrCodeResourceNotFoundException. */
  const ResourceNotFoundException: string := "ResourceNotFoundException"

  /** networkmanager.Attachment: every field is a pointer and may be nil. Tags
      are not part of this model. */
  datatype Attachment = Attachment(
    attachmentId: Option<string>,
    attachmentPolicyRuleNumber: Option<int>,
    attachmentType: Option<string>,
    coreNetworkArn: Option<string>,
    coreNetworkId: Option<string>,
    edgeLocation: Option<string>,
    ownerAccountId: Option<string>,
    resourceArn: Option<string>,
    segmentName: Option<string>,
    state: Option<string>)

  /** networkmanager.SiteToSiteVpnAttachment: the record the resource reads. */
  datatype SiteToSiteVpnAttachment = SiteToSiteVpnAttachment(
    attachment: Option<Attachment>,
    vpnConnectionArn: Option<string>)

  /** GetSiteToSiteVpnAttachmentOutput and CreateSiteToSiteVpnAttachmentOutput
      both wrap one optional record. */
  datatype AttachmentOutput = AttachmentOutput(siteToSiteVpnAttachment: Option<SiteToSiteVpnAttachment>)

  /** The errors that reach this resource.
      AwsError is an error returned by an SDK call, with its service code;
      NotFoundError is resource.NotFoundError with its LastError and the
      attachment ID of its LastRequest; EmptyResultError is the value of
      tfresource.NewEmptyResultError for the request's attachment ID;
      WaitError is any error the polling engine reports of its own (timeout,
      unexpected state, cancellation). */
  datatype Error =
    | AwsError(code: string, message: string)
    | NotFoundError(lastError: Error, lastRequestId: string)
    | EmptyResultError(lastRequestId: string)
    | WaitError(message: string)

  /** The reply of an SDK call: Go returns an output and an error, either of
      which may be nil. */
  datatype Reply = Reply(output: Option<AttachmentOutput>, err: Option<Error>)

  /** tfawserr.ErrCodeEquals and tfresource.NotFound, as tests on a non-nil
      error. Both are defined in packages outside this model, so they are kept
      abstract: every property below holds for every choice of them. */
  datatype ErrorPredicates = ErrorPredicates(
    errCodeEquals: (Error, string) -> bool,
    notFound: Error -> bool)

  /** tfawserr.ErrCodeEquals(err, code): false for a nil error. */
  function ErrCodeEquals(p: ErrorPredicates, err: Option<Error>, code: string): bool
  {
    err.Some? && p.errCodeEquals(err.value, code)
  }

  /** tfresource.NotFound(err): false for a nil error. */
  function NotFound(p: ErrorPredicates, err: Option<Error>): bool
  {
    err.Some? && p.notFound(err.value)
  }

  /** tfresource.NotFound recognises every resource.NotFoundError (what its
      name promises; an assumption that lemmas state explicitly). */
  ghost predicate RecognisesNotFoundError(p: ErrorPredicates)
  {
    forall e, id :: p.notFound(NotFoundError(e, id))
  }

  /** tfawserr.ErrCodeEquals sees through resource.NotFoundError to its
      LastError (it does when NotFoundError unwraps to LastError). */
  ghost predicate SeesThroughNotFoundError(p: ErrorPredicates)
  {
    forall e, id, code :: p.errCodeEquals(NotFoundError(e, id), code) == p.errCodeEquals(e, code)
  }
}
