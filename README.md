# Network Manager site-to-site VPN attachment: lifecycle model

This Dafny project models the decision logic of the Terraform AWS provider's
`aws_networkmanager_site_to_site_vpn_attachment` resource
(`internal/service/networkmanager/vpn_attachment.go`) and proves what it
promises. The logic covers four things:

- how a `GetSiteToSiteVpnAttachment` reply is classified (`FindVpnAttachmentByID`);
- how that classification becomes one observation of the status probe handed
  to the SDK's polling engine (`StatusVpnAttachmentState`);
- the three wait configurations (`waitVpnAttachmentCreated`, `...Deleted`,
  `...Available`) and how their typed result is passed back;
- the order of calls in Create and Delete, with their early returns. This
  includes Delete's refusal to delete while an attachment awaits acceptance
  and its treatment of "already gone" as success. Create ends by reading the
  attachment back (Read).

Files:

- `aws_types.dfy` (module `AwsTypes`): nilable pointers, the Network Manager
  records, SDK replies and the resource's errors. It also holds the two error
  tests taken from outside this file (`tfawserr.ErrCodeEquals`,
  `tfresource.NotFound`). These are abstract function fields of
  `ErrorPredicates`, so every property holds for every choice of them.
- `vpn_attachment.dfy` (module `VpnAttachment`): Find, the status probe, the
  wait specifications and the typed wait result. All are pure functions.
- `lifecycle.dfy` (module `Lifecycle`): `Create`, `Read` and `Delete` as
  methods over a `ResourceData` object (the ID and the `state` attribute).
  They call a `Client` whose replies are given in advance as functions
  (`Answers`), and each call is appended to a ghost `trace`. Each method's
  postcondition equates its outcome, new state and issued calls with a
  specification function (`CreateRun`, `ReadRun`, `DeleteRun`). The lifecycle
  properties are lemmas about those functions. Module `LifecycleScenarios`
  shows one caller's view: Delete of an attachment awaiting acceptance. From
  the method contracts alone it proves that only the lookup is issued.

The polling engine, `resource.StateChangeConf.WaitForStateContext`, is an
oracle: `Answers.wait` maps a wait configuration and an attachment ID to the
engine's raw result. The model does not say how the engine reaches that result.

State labels are the AWS SDK for Go's `AttachmentState` values (`CREATING`,
`PENDING_ATTACHMENT_ACCEPTANCE`, ...). The proofs use only the fact that these
values are distinct.

Three points about the code that the model keeps explicit:

- An empty Get result is not fatal in itself. Find returns
  `EmptyResultError`, and the probe treats it as absence exactly when
  `tfresource.NotFound` says so. The model leaves that choice to the abstract
  `notFound` test.
- Delete of an attachment that is already gone succeeds only when
  `ErrCodeEquals` finds ResourceNotFoundException inside Find's
  `NotFoundError`. Delete tests the error that Find returns, and that error
  wraps the SDK error. `DeleteOfMissingAttachment` proves the idempotent delete
  under the explicit assumption `SeesThroughNotFoundError`. `DeleteAlreadyGone`
  states what holds without that assumption.
- The probe's "absent" observation is the triple `(nil, "", nil)`. The model
  has no separate `absent` label.

## Model

| member | source | states |
|---|---|---|
| `VpnAttachment.FindVpnAttachmentByID` | internal/service/networkmanager/vpn_attachment.go:232-255 | Exactly one of record and error is returned. A record always carries an `Attachment`. ResourceNotFoundException becomes a `NotFoundError` wrapping the SDK error and the ID. Any other SDK error is returned unchanged. A nil output, record or `Attachment` is an `EmptyResultError`, never a record. Otherwise the result is exactly the reply's record. |
| `VpnAttachment.StatusVpnAttachmentState` | internal/service/networkmanager/vpn_attachment.go:257-271 | A not-found lookup yields `(nil, "", nil)`. Any other error yields `(nil, "", err)`. A found record yields the record and its `Attachment.State` verbatim (nil becomes ""). The absent triple arises from a not-found lookup and from nothing else. |
| `VpnAttachment.ResourceNotFoundIsAbsent` | internal/service/networkmanager/vpn_attachment.go:237-263 | If `tfresource.NotFound` recognises a `NotFoundError`, then a Get failing with ResourceNotFoundException is observed as absent. |
| `VpnAttachment.OtherGetErrorIsReported` | internal/service/networkmanager/vpn_attachment.go:246-267 | Any other Get error that `tfresource.NotFound` does not recognise reaches the engine unchanged, with no record. |
| `VpnAttachment.CreatedWaitSpec` | internal/service/networkmanager/vpn_attachment.go:273-279 | Pending is exactly `{CREATING, PENDING_NETWORK_UPDATE}` and target exactly `{AVAILABLE, PENDING_ATTACHMENT_ACCEPTANCE}`, and the two are disjoint. The timeout is passed through and `NotFoundChecks` is left unset. |
| `VpnAttachment.DeletedWaitSpec` | internal/service/networkmanager/vpn_attachment.go:290-297 | Pending is exactly `{DELETING}`. The target set is empty, so only disappearance ends the wait. `NotFoundChecks` is 1 and the timeout is passed through. |
| `VpnAttachment.AvailableWaitSpec` | internal/service/networkmanager/vpn_attachment.go:308-314 | Pending is exactly `{CREATING, PENDING_ATTACHMENT_ACCEPTANCE, PENDING_NETWORK_UPDATE}`. Only `AVAILABLE` ends the wait, and the sets are disjoint. |
| `VpnAttachment.WaitSpecsAgree` | internal/service/networkmanager/vpn_attachment.go:273-314 | The availability wait polls through the create wait's pending states, plus the create targets it does not stop at. Its target set is strictly smaller than the create wait's. The delete wait's pending state belongs to neither of the other two waits. |
| `VpnAttachment.TypedWaitResult` | internal/service/networkmanager/vpn_attachment.go:281-287 | The engine's error is always passed through unchanged. A record is returned exactly when the engine's value is a non-nil `*SiteToSiteVpnAttachment`, and it is that record. |
| `Lifecycle.Client.GetSiteToSiteVpnAttachment` | internal/service/networkmanager/vpn_attachment.go:237 | Returns the service's reply for the ID and appends one Get call to the trace. |
| `Lifecycle.Client.CreateSiteToSiteVpnAttachment` | internal/service/networkmanager/vpn_attachment.go:114 | Returns the service's reply for the core network and VPN, and appends one Create call to the trace. |
| `Lifecycle.Client.DeleteAttachment` | internal/service/networkmanager/vpn_attachment.go:213-215 | Returns the service's error for the ID and appends one Delete call to the trace. |
| `Lifecycle.Client.WaitForState` | internal/service/networkmanager/vpn_attachment.go:281 | Returns the engine's result for the wait configuration and the probed ID, and appends one Wait call to the trace. |
| `Lifecycle.ReadRun` | internal/service/networkmanager/vpn_attachment.go:134-162 | Issues one Get. An existing resource that turns out to be gone is removed (its ID becomes ""). Otherwise the ID is kept, and Read fails exactly when the lookup fails, with `ReadingFailed` naming the ID and the lookup's error. A found attachment's state is recorded. The `state` attribute is unchanged whenever the lookup failed. |
| `Lifecycle.Read` | internal/service/networkmanager/vpn_attachment.go:129-176 | Outcome, new ID, new `state` and the calls issued are those of `ReadRun`. |
| `Lifecycle.CreateRun` | internal/service/networkmanager/vpn_attachment.go:97-127 | The create call comes first and is issued once. There is no Delete call and at most one wait. Any call after the first needs a successful reply carrying the ID, and the second call is the create wait on that ID. A successful reply without a record or `Attachment` ends in `NilDereference` after the create call alone, with ID and `state` unchanged. |
| `Lifecycle.Create` | internal/service/networkmanager/vpn_attachment.go:97-127 | Outcome, new ID, new `state` and the calls issued are those of `CreateRun`. |
| `Lifecycle.CreateCallFailure` | internal/service/networkmanager/vpn_attachment.go:114-118 | A failed create call fails with an error naming the VPN, the core network and the cause. The ID and state stay unchanged, and no wait is issued. |
| `Lifecycle.CreateSetsIdBeforeWait` | internal/service/networkmanager/vpn_attachment.go:120-122 | After a successful create call, the create wait runs on the returned `AttachmentId`. A new resource keeps that ID. |
| `Lifecycle.CreateWaitFailure` | internal/service/networkmanager/vpn_attachment.go:122-124 | A failed create wait fails with an error naming the new ID and the engine's error. The ID stays the new one and `state` is unchanged. The calls are exactly the Create call and the create wait, so no Read follows. |
| `Lifecycle.CreateReadsOnlyAfterSuccess` | internal/service/networkmanager/vpn_attachment.go:122-126 | Create issues one Get, and otherwise none, exactly when the create call and the create wait both succeeded. It then ends as that Read ends. |
| `Lifecycle.DeleteRun` | internal/service/networkmanager/vpn_attachment.go:192-230 | The lookup comes first and the ID never changes. At most one Delete call is issued, a wait only after one, and no Create call. Delete never dereferences nil. |
| `Lifecycle.Delete` | internal/service/networkmanager/vpn_attachment.go:192-230 | Outcome, new `state` and the calls issued are those of `DeleteRun`, and the ID is unchanged. |
| `Lifecycle.DeleteAlreadyGone` | internal/service/networkmanager/vpn_attachment.go:197-200 | If the lookup's error has code ResourceNotFoundException, Delete succeeds after the lookup alone, with no Delete call and no wait. |
| `Lifecycle.DeleteOfMissingAttachment` | internal/service/networkmanager/vpn_attachment.go:197-200 | If `ErrCodeEquals` sees through `NotFoundError`, a Get failing with ResourceNotFoundException makes Delete succeed after the lookup alone. |
| `Lifecycle.DeleteLookupFailure` | internal/service/networkmanager/vpn_attachment.go:202-204 | Any other lookup error fails Delete, naming the ID and that error, with no Delete call. |
| `Lifecycle.DeleteRefusedWhileAwaitingAcceptance` | internal/service/networkmanager/vpn_attachment.go:206-210 | Delete refuses with an error naming the ID and the state, exactly when the lookup found the attachment pending attachment or tag acceptance. It then records that state and issues no Delete call and no wait. |
| `Lifecycle.DeleteCallOutcomes` | internal/service/networkmanager/vpn_attachment.go:212-229 | Otherwise exactly one Delete call is issued. ResourceNotFoundException from it is success without a wait. Any other error fails without a wait. With no error, the delete wait runs, and Delete fails naming the ID exactly when the wait reports an error. |
| `Lifecycle.AcceptancePendingBlocksDelete` | internal/service/networkmanager/vpn_attachment.go:206-210 | The create wait may stop in `PENDING_ATTACHMENT_ACCEPTANCE`. An attachment in that state is refused by Delete, with no Delete call. |

## Left out

- The polling engine (`WaitForStateContext`) lives in the plugin SDK and is
  driven by time and context. It is an oracle over the wait configuration and
  the ID. Its cadence, deadline, counting of `NotFoundChecks`, default of 20
  checks when the field is unset, and cancellation are not modelled.
- `tfawserr.ErrCodeEquals` and `tfresource.NotFound` are defined in packages
  outside this model. They are abstract tests, and a nil error fails both.
  The model does not decide whether an empty result counts as not found.
- Timeouts are opaque numbers passed through to the wait configurations. The
  10-minute defaults and all durations are not modelled.
- The schema declaration, importer, `CustomizeDiff` and Update are not
  modelled. Update only changes tags.
- All tag handling is not modelled: default and ignore merging, the tags sent
  on create, `UpdateTags`, and setting `tags`/`tags_all`.
- Lifecycle.Read: sets only the `state` attribute. Flattening the other
  attributes and assembling the ARN (a foreign library) are not modelled.
- Diagnostics are structured values naming what the message names. Logging
  and message text formatting are not modelled.
- `Answers` gives one fixed reply per argument. No operation issues two calls
  of one kind with the same arguments, so this does not restrict the model.
- The context and the SDK connection are not modelled; the `Client` stands in
  for both.
- A successful create reply without a record or `Attachment` makes
  `resourceVpnAttachmentCreate` dereference nil (vpn_attachment.go:120), a Go
  panic. The model records this as the outcome
  `NilDereference` rather than modelling the crash.
