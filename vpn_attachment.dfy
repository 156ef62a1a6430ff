/** The pure part of the VPN attachment resource: classifying a Get reply
    (FindVpnAttachmentByID), the status probe handed to the polling engine
    (StatusVpnAttachmentState), and the three wait configurations with the
    typed pass-through of the engine's result (waitVpnAttachment*). */
module VpnAttachment {
  import opened AwsTypes

  /** What FindVpnAttachmentByID returns: a record or an error. */
  datatype FindResult = FindResult(output: Option<SiteToSiteVpnAttachment>, err: Option<Error>)

  /** The reply carries a SiteToSiteVpnAttachment that carries an Attachment. */
  predicate HasAttachment(output: Option<AttachmentOutput>)
  {
    output.Some? && output.value.siteToSiteVpnAttachment.Some?
    && output.value.siteToSiteVpnAttachment.value.attachment.Some?
  }

  /** FindVpnAttachmentByID for attachment `id`, given the reply of
      GetSiteToSiteVpnAttachment. */
  function FindVpnAttachmentByID(p: ErrorPredicates, id: string, reply: Reply): (r: FindResult)
    // exactly one of record and error, and a record always has an Attachment
    ensures r.output.Some? <==> r.err.None?
    ensures r.output.Some? ==> r.output.value.attachment.Some?
    // ResourceNotFoundException becomes a NotFoundError wrapping the SDK error
    ensures ErrCodeEquals(p, reply.err, ResourceNotFoundException)
            ==> r == FindResult(None, Some(NotFoundError(reply.err.value, id)))
    // any other SDK error is passed through unchanged
    ensures reply.err.Some? && !ErrCodeEquals(p, reply.err, ResourceNotFoundException)
            ==> r == FindResult(None, reply.err)
    // a missing output, record or Attachment is an empty result, never a record
    ensures reply.err.None? && !HasAttachment(reply.output)
            ==> r == FindResult(None, Some(EmptyResultError(id)))
    // otherwise exactly the record of the reply
    ensures reply.err.None? && HasAttachment(reply.output)
            ==> r == FindResult(reply.output.value.siteToSiteVpnAttachment, None)
  {
    if ErrCodeEquals(p, reply.err, ResourceNotFoundException) then
      FindResult(None, Some(NotFoundError(reply.err.value, id)))
    else if reply.err.Some? then
      FindResult(None, reply.err)
    else if !HasAttachment(reply.output) then
      FindResult(None, Some(EmptyResultError(id)))
    else
      FindResult(reply.output.value.siteToSiteVpnAttachment, None)
  }

  /** The triple (result, state, error) of a resource.StateRefreshFunc. */
  datatype Refresh = Refresh(result: Option<SiteToSiteVpnAttachment>, state: string, err: Option<Error>)

  /** One run of the refresh function StatusVpnAttachmentState returns, for
      attachment `id` and the Get reply it receives. */
  function StatusVpnAttachmentState(p: ErrorPredicates, id: string, reply: Reply): (r: Refresh)
    // an error classified as not found is the "absent" observation
    ensures NotFound(p, FindVpnAttachmentByID(p, id, reply).err) ==> r == Refresh(None, "", None)
    // any other error is reported, without a record
    ensures var found := FindVpnAttachmentByID(p, id, reply);
            found.err.Some? && !NotFound(p, found.err) ==> r == Refresh(None, "", found.err)
    // a record is reported with its Attachment's state, verbatim
    ensures var found := FindVpnAttachmentByID(p, id, reply);
            found.err.None? ==>
              found.output.Some? && found.output.value.attachment.Some?
              && r == Refresh(found.output, StringValue(found.output.value.attachment.value.state), None)
    // the absent observation arises from a not-found error and from nothing else
    ensures r.result.None? && r.err.None? <==> NotFound(p, FindVpnAttachmentByID(p, id, reply).err)
  {
    var found := FindVpnAttachmentByID(p, id, reply);
    if NotFound(p, found.err) then Refresh(None, "", None)
    else if found.err.Some? then Refresh(None, "", found.err)
    else Refresh(found.output, StringValue(found.output.value.attachment.value.state), None)
  }

  /** When tfresource.NotFound recognises resource.NotFoundError, a Get that
      fails with ResourceNotFoundException is observed as absent. */
  lemma ResourceNotFoundIsAbsent(p: ErrorPredicates, id: string, reply: Reply)
    requires RecognisesNotFoundError(p)
    requires ErrCodeEquals(p, reply.err, ResourceNotFoundException)
    ensures StatusVpnAttachmentState(p, id, reply) == Refresh(None, "", None)
  {
  }

  /** A Get that fails with any other code reaches the engine unchanged, as a
      fatal probe error, when tfresource.NotFound does not recognise it. */
  lemma OtherGetErrorIsReported(p: ErrorPredicates, id: string, reply: Reply)
    requires reply.err.Some? && !ErrCodeEquals(p, reply.err, ResourceNotFoundException)
    requires !p.notFound(reply.err.value)
    ensures StatusVpnAttachmentState(p, id, reply) == Refresh(None, "", reply.err)
  {
  }

  /** The configuration a wait hands to resource.StateChangeConf: its Pending and
      Target states, its Timeout (an opaque duration here) and NotFoundChecks (0
      when the field is left unset). */
  datatype WaitSpec = WaitSpec(pending: set<string>, target: set<string>, timeout: nat, notFoundChecks: nat)

  /** waitVpnAttachmentCreated: creating and pending-network-update keep
      polling; available or pending-attachment-acceptance end the wait. */
  function CreatedWaitSpec(timeout: nat): (s: WaitSpec)
    ensures s.pending == {Creating, PendingNetworkUpdate}
    ensures s.target == {Available, PendingAttachmentAcceptance}
    ensures s.pending !! s.target
    ensures s.timeout == timeout && s.notFoundChecks == 0
  {
    WaitSpec({Creating, PendingNetworkUpdate}, {Available, PendingAttachmentAcceptance}, timeout, 0)
  }

  /** waitVpnAttachmentDeleted: deleting keeps polling; there is no target
      state, so only the attachment's disappearance ends the wait, after one
      not-found observation. */
  function DeletedWaitSpec(timeout: nat): (s: WaitSpec)
    ensures s.pending == {Deleting}
    ensures s.target == {} && s.pending !! s.target
    ensures s.timeout == timeout && s.notFoundChecks == 1
  {
    WaitSpec({Deleting}, {}, timeout, 1)
  }

  /** waitVpnAttachmentAvailable: only available ends the wait; the acceptance
      step is waited through. */
  function AvailableWaitSpec(timeout: nat): (s: WaitSpec)
    ensures s.pending == {Creating, PendingAttachmentAcceptance, PendingNetworkUpdate}
    ensures s.target == {Available} && s.pending !! s.target
    ensures s.timeout == timeout && s.notFoundChecks == 0
  {
    WaitSpec({Creating, PendingAttachmentAcceptance, PendingNetworkUpdate}, {Available}, timeout, 0)
  }

  /** How the three waits relate: the availability wait polls through every
      state the create wait polls through and through the acceptance state at
      which the create wait may stop; it stops only where the create wait may;
      and no state the delete wait polls through ends or prolongs the others. */
  lemma WaitSpecsAgree(timeout: nat)
    ensures var c, a, d := CreatedWaitSpec(timeout), AvailableWaitSpec(timeout), DeletedWaitSpec(timeout);
      a.pending == c.pending + (c.target - a.target)
      && a.target < c.target
      && d.pending !! (c.pending + c.target + a.pending + a.target)
  {
  }

  /** The interface{} value returned by WaitForStateContext: nil, a
      *SiteToSiteVpnAttachment (itself possibly nil), or some other value. */
  datatype RawValue = NilValue | VpnAttachmentValue(ptr: Option<SiteToSiteVpnAttachment>) | OtherValue

  /** What WaitForStateContext returns. */
  datatype RawWait = RawWait(value: RawValue, err: Option<Error>)

  /** What each waitVpnAttachment* returns. */
  datatype WaitResult = WaitResult(output: Option<SiteToSiteVpnAttachment>, err: Option<Error>)

  /** The type assertion shared by the three waits. */
  function TypedWaitResult(raw: RawWait): (r: WaitResult)
    // the engine's error is always passed through unchanged
    ensures r.err == raw.err
    // a record is returned exactly when the engine's value is a non-nil record
    ensures r.output.Some? <==> raw.value.VpnAttachmentValue? && raw.value.ptr.Some?
    ensures r.output.Some? ==> raw.value == VpnAttachmentValue(r.output)
  {
    match raw.value
    case VpnAttachmentValue(ptr) => WaitResult(ptr, raw.err)
    case _ => WaitResult(None, raw.err)
  }
}
