/** The imperative part of the VPN attachment resource: Create, Read and
    Delete as methods over the resource data `d`, issuing their calls through
    a client whose replies are given in advance and which records every call
    in a ghost trace. Each method is specified by a function (CreateRun,
    ReadRun, DeleteRun) of the replies it receives; the properties of the
    lifecycle are lemmas about those functions. */
module Lifecycle {
  import opened AwsTypes
  import opened VpnAttachment

  /** A call the resource issues: GetSiteToSiteVpnAttachment,
      CreateSiteToSiteVpnAttachment(coreNetworkId, vpnArn), DeleteAttachment,
      or a WaitForStateContext over the status probe of attachment `id`. */
  datatype Call =
    | GetCall(id: string)
    | CreateCall(coreNetworkId: string, vpnArn: string)
    | DeleteCall(id: string)
    | WaitCall(spec: WaitSpec, id: string)

  datatype CallKind = GetKind | CreateKind | DeleteKind | WaitKind

  function KindOf(c: Call): CallKind
  {
    match c
    case GetCall(_) => GetKind
    case CreateCall(_, _) => CreateKind
    case DeleteCall(_) => DeleteKind
    case WaitCall(_, _) => WaitKind
  }

  /** The number of calls of kind `k` in `calls`. */
  function Count(calls: seq<Call>, k: CallKind): nat
  {
    if calls == [] then 0
    else (if KindOf(calls[0]) == k then 1 else 0) + Count(calls[1..], k)
  }

  lemma {:induction false} CountAppend(a: seq<Call>, b: seq<Call>, k: CallKind)
    ensures Count(a + b, k) == Count(a, k) + Count(b, k)
  {
    if a == [] {
      assert a + b == b;
    } else {
      assert (a + b)[0] == a[0];
      assert (a + b)[1..] == a[1..] + b;
      CountAppend(a[1..], b, k);
    }
  }

  /** The replies the remote side gives: the Network Manager API for Get,
      Create and Delete (of whose output the resource reads nothing), and the
      polling engine, which runs the status probe of an attachment until the
      wait it is given resolves and is not modelled beyond its result. */
  datatype Answers = Answers(
    get: string -> Reply,
    create: (string, string) -> Reply,
    delete: string -> Option<Error>,
    wait: (WaitSpec, string) -> RawWait)

  /** The NetworkManager connection together with the polling engine. */
  class Client {
    const answers: Answers
    ghost var trace: seq<Call>

    constructor (answers: Answers)
      ensures this.answers == answers && trace == []
    {
      this.answers := answers;
      trace := [];
    }

    method GetSiteToSiteVpnAttachment(id: string) returns (reply: Reply)
      modifies this`trace
      ensures reply == answers.get(id) && trace == old(trace) + [GetCall(id)]
    {
      reply := answers.get(id);
      trace := trace + [GetCall(id)];
    }

    method CreateSiteToSiteVpnAttachment(coreNetworkId: string, vpnArn: string) returns (reply: Reply)
      modifies this`trace
      ensures reply == answers.create(coreNetworkId, vpnArn)
      ensures trace == old(trace) + [CreateCall(coreNetworkId, vpnArn)]
    {
      reply := answers.create(coreNetworkId, vpnArn);
      trace := trace + [CreateCall(coreNetworkId, vpnArn)];
    }

    method DeleteAttachment(id: string) returns (err: Option<Error>)
      modifies this`trace
      ensures err == answers.delete(id) && trace == old(trace) + [DeleteCall(id)]
    {
      err := answers.delete(id);
      trace := trace + [DeleteCall(id)];
    }

    /** resource.StateChangeConf.WaitForStateContext with Refresh set to
        StatusVpnAttachmentState for attachment `id`. */
    method WaitForState(spec: WaitSpec, id: string) returns (raw: RawWait)
      modifies this`trace
      ensures raw == answers.wait(spec, id) && trace == old(trace) + [WaitCall(spec, id)]
    {
      raw := answers.wait(spec, id);
      trace := trace + [WaitCall(spec, id)];
    }
  }

  /** The part of schema.ResourceData the lifecycle touches: the ID (""
      when unset), the "state" attribute, the two configured arguments, the
      create and delete timeouts, and whether the resource is being created. */
  class ResourceData {
    var id: string
    var state: string
    const coreNetworkId: string
    const vpnArn: string
    const createTimeout: nat
    const deleteTimeout: nat
    const isNewResource: bool

    constructor (coreNetworkId: string, vpnArn: string, createTimeout: nat, deleteTimeout: nat, isNewResource: bool)
      ensures id == "" && state == ""
      ensures this.coreNetworkId == coreNetworkId && this.vpnArn == vpnArn
      ensures this.createTimeout == createTimeout && this.deleteTimeout == deleteTimeout
      ensures this.isNewResource == isNewResource
    {
      id, state := "", "";
      this.coreNetworkId, this.vpnArn := coreNetworkId, vpnArn;
      this.createTimeout, this.deleteTimeout := createTimeout, deleteTimeout;
      this.isNewResource := isNewResource;
    }
  }

  /** The error diagnostics the lifecycle reports, with what each names. */
  datatype Diagnostic =
    | CreatingFailed(vpnArn: string, coreNetworkId: string, cause: Error)
    | WaitingForCreateFailed(id: string, cause: Error)
    | ReadingFailed(id: string, cause: Error)
    | DeletingFailed(id: string, cause: Error)
    | CannotDeleteInState(id: string, state: string)
    | WaitingForDeleteFailed(id: string, cause: Error)

  /** What an operation ends in: no diagnostics, one error diagnostic, or a
      nil pointer dereference (a Go panic). */
  datatype Outcome = Succeeded | Failed(diagnostic: Diagnostic) | NilDereference

  /** An operation's outcome, the ID and "state" attribute it leaves, and the
      calls it issued, in order. */
  datatype Run = Run(outcome: Outcome, id: string, state: string, calls: seq<Call>)

  /** The state Delete refuses to delete in: an external acceptance step has
      to happen first. */
  predicate AwaitsAcceptance(state: string)
  {
    state == PendingAttachmentAcceptance || state == PendingTagAcceptance
  }

  /** resourceVpnAttachmentRead, restricted to its control flow and the "state"
      attribute, for ID `id` and prior "state" `state`. */
  function ReadRun(a: Answers, p: ErrorPredicates, id: string, state: string, isNew: bool): (r: Run)
    ensures r.calls == [GetCall(id)]
    // an existing resource that is gone is removed from the state
    ensures !isNew && NotFound(p, FindVpnAttachmentByID(p, id, a.get(id)).err) ==> r.outcome.Succeeded? && r.id == ""
    // the resource keeps its ID otherwise, and fails exactly when the lookup does
    ensures !(!isNew && NotFound(p, FindVpnAttachmentByID(p, id, a.get(id)).err)) ==>
              r.id == id && (r.outcome.Succeeded? <==> FindVpnAttachmentByID(p, id, a.get(id)).err.None?)
    // a successful lookup records the attachment's state
    ensures var found := FindVpnAttachmentByID(p, id, a.get(id));
            found.err.None? ==> r.state == StringValue(found.output.value.attachment.value.state)
    // a failed lookup fails Read, naming the ID and the lookup's error
    ensures var found := FindVpnAttachmentByID(p, id, a.get(id));
            !(!isNew && NotFound(p, found.err)) && found.err.Some? ==>
              r.outcome == Failed(ReadingFailed(id, found.err.value))
    // the "state" attribute changes only when the attachment was found
    ensures var found := FindVpnAttachmentByID(p, id, a.get(id));
            found.err.Some? ==> r.state == state
    ensures !r.outcome.NilDereference?
  {
    var found := FindVpnAttachmentByID(p, id, a.get(id));
    if !isNew && NotFound(p, found.err) then
      Run(Succeeded, "", state, [GetCall(id)])
    else if found.err.Some? then
      Run(Failed(ReadingFailed(id, found.err.value)), id, state, [GetCall(id)])
    else
      Run(Succeeded, id, StringValue(found.output.value.attachment.value.state), [GetCall(id)])
  }

  /** The ID a successful create reply assigns. */
  function CreatedId(output: Option<AttachmentOutput>): string
    requires HasAttachment(output)
  {
    StringValue(output.value.siteToSiteVpnAttachment.value.attachment.value.attachmentId)
  }

  /** resourceVpnAttachmentCreate, for resource data whose ID is `id0` and
      whose "state" is `state0`. */
  function CreateRun(a: Answers, p: ErrorPredicates, coreNetworkId: string, vpnArn: string,
                     timeout: nat, id0: string, state0: string, isNew: bool): (r: Run)
    // the create call comes first and is issued once
    ensures |r.calls| >= 1 && r.calls[0] == CreateCall(coreNetworkId, vpnArn)
    ensures Count(r.calls, CreateKind) == 1 && Count(r.calls, DeleteKind) == 0
    // at most one wait, and it is the create wait on the ID just set
    ensures Count(r.calls, WaitKind) <= 1
    // anything after the create call needs a successful reply carrying the ID
    ensures var reply := a.create(coreNetworkId, vpnArn);
            |r.calls| >= 2 ==>
              reply.err.None? && HasAttachment(reply.output)
              && r.calls[1] == WaitCall(CreatedWaitSpec(timeout), CreatedId(reply.output))
    // a successful reply without a record or Attachment dereferences nil
    ensures var reply := a.create(coreNetworkId, vpnArn);
            reply.err.None? && !HasAttachment(reply.output) ==>
              r == Run(NilDereference, id0, state0, [CreateCall(coreNetworkId, vpnArn)])
  {
    var reply := a.create(coreNetworkId, vpnArn);
    var c0 := [CreateCall(coreNetworkId, vpnArn)];
    if reply.err.Some? then
      Run(Failed(CreatingFailed(vpnArn, coreNetworkId, reply.err.value)), id0, state0, c0)
    else if !HasAttachment(reply.output) then
      Run(NilDereference, id0, state0, c0)
    else
      var id := CreatedId(reply.output);
      var spec := CreatedWaitSpec(timeout);
      var w := TypedWaitResult(a.wait(spec, id));
      var c1 := c0 + [WaitCall(spec, id)];
      CountAppend(c0, [WaitCall(spec, id)], WaitKind);
      if w.err.Some? then
        Run(Failed(WaitingForCreateFailed(id, w.err.value)), id, state0, c1)
      else
        var rd := ReadRun(a, p, id, state0, isNew);
        CountAppend(c1, rd.calls, CreateKind);
        CountAppend(c1, rd.calls, DeleteKind);
        CountAppend(c1, rd.calls, WaitKind);
        Run(rd.outcome, rd.id, rd.state, c1 + rd.calls)
  }

  /** resourceVpnAttachmentDelete, for resource data whose ID is `id` and
      whose "state" is `state0`. */
  function DeleteRun(a: Answers, p: ErrorPredicates, id: string, state0: string, timeout: nat): (r: Run)
    // the lookup comes first; Delete never changes the ID
    ensures |r.calls| >= 1 && r.calls[0] == GetCall(id) && r.id == id
    // at most one Delete call, and a wait only after one
    ensures Count(r.calls, DeleteKind) <= 1
    ensures Count(r.calls, WaitKind) <= Count(r.calls, DeleteKind)
    ensures Count(r.calls, CreateKind) == 0
    ensures !r.outcome.NilDereference?
  {
    var found := FindVpnAttachmentByID(p, id, a.get(id));
    var c0 := [GetCall(id)];
    if ErrCodeEquals(p, found.err, ResourceNotFoundException) then
      Run(Succeeded, id, state0, c0)
    else if found.err.Some? then
      Run(Failed(DeletingFailed(id, found.err.value)), id, state0, c0)
    else
      var state := StringValue(found.output.value.attachment.value.state);
      if AwaitsAcceptance(state) then
        Run(Failed(CannotDeleteInState(id, state)), id, state, c0)
      else
        var err := a.delete(id);
        var c1 := c0 + [DeleteCall(id)];
        CountAppend(c0, [DeleteCall(id)], WaitKind);
        if ErrCodeEquals(p, err, ResourceNotFoundException) then
          Run(Succeeded, id, state, c1)
        else if err.Some? then
          Run(Failed(DeletingFailed(id, err.value)), id, state, c1)
        else
          var spec := DeletedWaitSpec(timeout);
          var w := TypedWaitResult(a.wait(spec, id));
          var c2 := c1 + [WaitCall(spec, id)];
          CountAppend(c1, [WaitCall(spec, id)], CreateKind);
          CountAppend(c1, [WaitCall(spec, id)], DeleteKind);
          CountAppend(c1, [WaitCall(spec, id)], WaitKind);
          if w.err.Some? then
            Run(Failed(WaitingForDeleteFailed(id, w.err.value)), id, state, c2)
          else
            Run(Succeeded, id, state, c2)
  }

  /** resourceVpnAttachmentRead. */
  method Read(d: ResourceData, client: Client, p: ErrorPredicates) returns (outcome: Outcome)
    modifies d`id, d`state, client`trace
    ensures var r := ReadRun(client.answers, p, old(d.id), old(d.state), d.isNewResource);
            outcome == r.outcome && d.id == r.id && d.state == r.state
            && client.trace == old(client.trace) + r.calls
  {
    var reply := client.GetSiteToSiteVpnAttachment(d.id);
    var found := FindVpnAttachmentByID(p, d.id, reply);
    if !d.isNewResource && NotFound(p, found.err) {
      d.id := "";
      return Succeeded;
    }
    if found.err.Some? {
      return Failed(ReadingFailed(d.id, found.err.value));
    }
    var attachment := found.output.value.attachment.value;
    d.state := StringValue(attachment.state);
    return Succeeded;
  }

  /** resourceVpnAttachmentCreate. */
  method Create(d: ResourceData, client: Client, p: ErrorPredicates) returns (outcome: Outcome)
    modifies d`id, d`state, client`trace
    ensures var r := CreateRun(client.answers, p, d.coreNetworkId, d.vpnArn, d.createTimeout,
                               old(d.id), old(d.state), d.isNewResource);
            outcome == r.outcome && d.id == r.id && d.state == r.state
            && client.trace == old(client.trace) + r.calls
  {
    var reply := client.CreateSiteToSiteVpnAttachment(d.coreNetworkId, d.vpnArn);
    if reply.err.Some? {
      return Failed(CreatingFailed(d.vpnArn, d.coreNetworkId, reply.err.value));
    }
    if !HasAttachment(reply.output) {
      return NilDereference;
    }
    d.id := StringValue(reply.output.value.siteToSiteVpnAttachment.value.attachment.value.attachmentId);
    var raw := client.WaitForState(CreatedWaitSpec(d.createTimeout), d.id);
    var w := TypedWaitResult(raw);
    if w.err.Some? {
      return Failed(WaitingForCreateFailed(d.id, w.err.value));
    }
    outcome := Read(d, client, p);
  }

  /** resourceVpnAttachmentDelete. */
  method Delete(d: ResourceData, client: Client, p: ErrorPredicates) returns (outcome: Outcome)
    modifies d`state, client`trace
    ensures var r := DeleteRun(client.answers, p, d.id, old(d.state), d.deleteTimeout);
            outcome == r.outcome && d.id == r.id && d.state == r.state
            && client.trace == old(client.trace) + r.calls
  {
    var reply := client.GetSiteToSiteVpnAttachment(d.id);
    var found := FindVpnAttachmentByID(p, d.id, reply);
    if ErrCodeEquals(p, found.err, ResourceNotFoundException) {
      return Succeeded;
    }
    if found.err.Some? {
      return Failed(DeletingFailed(d.id, found.err.value));
    }
    d.state := StringValue(found.output.value.attachment.value.state);
    if AwaitsAcceptance(d.state) {
      return Failed(CannotDeleteInState(d.id, d.state));
    }
    var err := client.DeleteAttachment(d.id);
    if ErrCodeEquals(p, err, ResourceNotFoundException) {
      return Succeeded;
    }
    if err.Some? {
      return Failed(DeletingFailed(d.id, err.value));
    }
    var raw := client.WaitForState(DeletedWaitSpec(d.deleteTimeout), d.id);
    var w := TypedWaitResult(raw);
    if w.err.Some? {
      return Failed(WaitingForDeleteFailed(d.id, w.err.value));
    }
    return Succeeded;
  }

  // Create

  /** A failed create call ends Create at once: the error names the VPN and
      the core network, no ID is set and nothing is waited for. */
  lemma CreateCallFailure(a: Answers, p: ErrorPredicates, coreNetworkId: string, vpnArn: string,
                          timeout: nat, id0: string, state0: string, isNew: bool)
    requires a.create(coreNetworkId, vpnArn).err.Some?
    ensures var r := CreateRun(a, p, coreNetworkId, vpnArn, timeout, id0, state0, isNew);
            r.outcome == Failed(CreatingFailed(vpnArn, coreNetworkId, a.create(coreNetworkId, vpnArn).err.value))
            && r.id == id0 && r.state == state0
            && r.calls == [CreateCall(coreNetworkId, vpnArn)] && Count(r.calls, WaitKind) == 0
  {
  }

  /** After a successful create call the ID is the returned AttachmentId, and
      the create wait runs on that ID; a new resource keeps that ID. */
  lemma CreateSetsIdBeforeWait(a: Answers, p: ErrorPredicates, coreNetworkId: string, vpnArn: string,
                               timeout: nat, id0: string, state0: string, isNew: bool)
    requires a.create(coreNetworkId, vpnArn).err.None?
    requires HasAttachment(a.create(coreNetworkId, vpnArn).output)
    ensures var r := CreateRun(a, p, coreNetworkId, vpnArn, timeout, id0, state0, isNew);
            var id := CreatedId(a.create(coreNetworkId, vpnArn).output);
            |r.calls| >= 2 && r.calls[1] == WaitCall(CreatedWaitSpec(timeout), id)
            && (isNew ==> r.id == id)
  {
  }

  /** A failed create wait is reported with the new ID, and no Read follows. */
  lemma CreateWaitFailure(a: Answers, p: ErrorPredicates, coreNetworkId: string, vpnArn: string,
                          timeout: nat, id0: string, state0: string, isNew: bool)
    requires a.create(coreNetworkId, vpnArn).err.None?
    requires HasAttachment(a.create(coreNetworkId, vpnArn).output)
    requires a.wait(CreatedWaitSpec(timeout), CreatedId(a.create(coreNetworkId, vpnArn).output)).err.Some?
    ensures var r := CreateRun(a, p, coreNetworkId, vpnArn, timeout, id0, state0, isNew);
            var id := CreatedId(a.create(coreNetworkId, vpnArn).output);
            r.outcome == Failed(WaitingForCreateFailed(id, a.wait(CreatedWaitSpec(timeout), id).err.value))
            && r.id == id && r.state == state0
            && r.calls == [CreateCall(coreNetworkId, vpnArn), WaitCall(CreatedWaitSpec(timeout), id)]
            && Count(r.calls, GetKind) == 0
  {
    var id := CreatedId(a.create(coreNetworkId, vpnArn).output);
    CountAppend([CreateCall(coreNetworkId, vpnArn)], [WaitCall(CreatedWaitSpec(timeout), id)], GetKind);
  }

  /** Create reads the attachment back exactly when the create call and the
      create wait both succeeded, and then ends as that Read does. */
  lemma CreateReadsOnlyAfterSuccess(a: Answers, p: ErrorPredicates, coreNetworkId: string, vpnArn: string,
                                    timeout: nat, id0: string, state0: string, isNew: bool)
    ensures var r := CreateRun(a, p, coreNetworkId, vpnArn, timeout, id0, state0, isNew);
            var reply := a.create(coreNetworkId, vpnArn);
            var settled := reply.err.None? && HasAttachment(reply.output)
                           && a.wait(CreatedWaitSpec(timeout), CreatedId(reply.output)).err.None?;
            (Count(r.calls, GetKind) == 1 <==> settled)
            && (Count(r.calls, GetKind) != 1 ==> Count(r.calls, GetKind) == 0)
            && (settled ==> r == (var rd := ReadRun(a, p, CreatedId(reply.output), state0, isNew);
                                  Run(rd.outcome, rd.id, rd.state,
                                      [CreateCall(coreNetworkId, vpnArn), WaitCall(CreatedWaitSpec(timeout), CreatedId(reply.output))]
                                      + rd.calls)))
  {
    var reply := a.create(coreNetworkId, vpnArn);
    var c0 := [CreateCall(coreNetworkId, vpnArn)];
    if reply.err.None? && HasAttachment(reply.output) {
      var id := CreatedId(reply.output);
      var c1 := c0 + [WaitCall(CreatedWaitSpec(timeout), id)];
      CountAppend(c1, [GetCall(id)], GetKind);
    }
  }

  // Delete

  /** A lookup that reports ResourceNotFoundException makes Delete succeed
      after the lookup alone: no Delete call, no wait. */
  lemma DeleteAlreadyGone(a: Answers, p: ErrorPredicates, id: string, state0: string, timeout: nat)
    requires ErrCodeEquals(p, FindVpnAttachmentByID(p, id, a.get(id)).err, ResourceNotFoundException)
    ensures DeleteRun(a, p, id, state0, timeout) == Run(Succeeded, id, state0, [GetCall(id)])
  {
  }

  /** When tfawserr.ErrCodeEquals sees through resource.NotFoundError, a Get
      that fails with ResourceNotFoundException is such a lookup: deleting an
      attachment that is already gone succeeds without a Delete call. */
  lemma DeleteOfMissingAttachment(a: Answers, p: ErrorPredicates, id: string, state0: string, timeout: nat)
    requires SeesThroughNotFoundError(p)
    requires ErrCodeEquals(p, a.get(id).err, ResourceNotFoundException)
    ensures DeleteRun(a, p, id, state0, timeout) == Run(Succeeded, id, state0, [GetCall(id)])
  {
  }

  /** Any other lookup error fails Delete, naming the ID, after the lookup
      alone. */
  lemma DeleteLookupFailure(a: Answers, p: ErrorPredicates, id: string, state0: string, timeout: nat)
    requires var found := FindVpnAttachmentByID(p, id, a.get(id));
             found.err.Some? && !ErrCodeEquals(p, found.err, ResourceNotFoundException)
    ensures DeleteRun(a, p, id, state0, timeout)
            == Run(Failed(DeletingFailed(id, FindVpnAttachmentByID(p, id, a.get(id)).err.value)), id, state0, [GetCall(id)])
  {
  }

  /** Delete refuses, naming the state, exactly when the lookup found the
      attachment awaiting acceptance; it then issues no Delete call and no
      wait, and records the state it found. */
  lemma DeleteRefusedWhileAwaitingAcceptance(a: Answers, p: ErrorPredicates, id: string, state0: string, timeout: nat)
    ensures var r := DeleteRun(a, p, id, state0, timeout);
            var found := FindVpnAttachmentByID(p, id, a.get(id));
            (r.outcome.Failed? && r.outcome.diagnostic.CannotDeleteInState?)
            <==> (found.err.None? && AwaitsAcceptance(StringValue(found.output.value.attachment.value.state)))
    ensures var r := DeleteRun(a, p, id, state0, timeout);
            var found := FindVpnAttachmentByID(p, id, a.get(id));
            found.err.None? && AwaitsAcceptance(StringValue(found.output.value.attachment.value.state)) ==>
              var state := StringValue(found.output.value.attachment.value.state);
              r == Run(Failed(CannotDeleteInState(id, state)), id, state, [GetCall(id)])
              && Count(r.calls, DeleteKind) == 0 && Count(r.calls, WaitKind) == 0
  {
  }

  /** Once the lookup found the attachment outside the acceptance states,
      Delete issues exactly one Delete call. A ResourceNotFoundException from
      it is success and any other error a failure, both without waiting;
      otherwise the delete wait runs and Delete ends as it does. */
  lemma DeleteCallOutcomes(a: Answers, p: ErrorPredicates, id: string, state0: string, timeout: nat)
    requires var found := FindVpnAttachmentByID(p, id, a.get(id));
             found.err.None? && !AwaitsAcceptance(StringValue(found.output.value.attachment.value.state))
    ensures var r := DeleteRun(a, p, id, state0, timeout);
            var state := StringValue(FindVpnAttachmentByID(p, id, a.get(id)).output.value.attachment.value.state);
            var err := a.delete(id);
            var w := a.wait(DeletedWaitSpec(timeout), id);
            r.state == state && Count(r.calls, DeleteKind) == 1
            && (ErrCodeEquals(p, err, ResourceNotFoundException) ==>
                  r.outcome == Succeeded && r.calls == [GetCall(id), DeleteCall(id)])
            && (err.Some? && !ErrCodeEquals(p, err, ResourceNotFoundException) ==>
                  r.outcome == Failed(DeletingFailed(id, err.value)) && r.calls == [GetCall(id), DeleteCall(id)])
            && (err.None? ==>
                  r.calls == [GetCall(id), DeleteCall(id), WaitCall(DeletedWaitSpec(timeout), id)]
                  && r.outcome == (if w.err.Some? then Failed(WaitingForDeleteFailed(id, w.err.value)) else Succeeded))
  {
  }

  /** A create wait may settle in pending-attachment-acceptance, and while the
      attachment stays there Delete refuses to delete it. */
  lemma AcceptancePendingBlocksDelete(a: Answers, p: ErrorPredicates, id: string, state0: string, timeout: nat)
    requires a.get(id).err.None? && HasAttachment(a.get(id).output)
    requires a.get(id).output.value.siteToSiteVpnAttachment.value.attachment.value.state == Some(PendingAttachmentAcceptance)
    ensures PendingAttachmentAcceptance in CreatedWaitSpec(timeout).target
    ensures var r := DeleteRun(a, p, id, state0, timeout);
            r.outcome == Failed(CannotDeleteInState(id, PendingAttachmentAcceptance)) && Count(r.calls, DeleteKind) == 0
  {
  }
}

/** What a caller can conclude from the methods' contracts alone: Delete of an
    attachment awaiting acceptance issues a lookup and nothing else. */
module LifecycleScenarios {
  import opened AwsTypes
  import opened VpnAttachment
  import opened Lifecycle

  method DeleteWhileAwaitingAcceptance(p: ErrorPredicates, id: string)
  {
    var pending := Attachment(Some(id), None, None, None, None, None, None, None, None,
                              Some(PendingAttachmentAcceptance));
    var reply := Reply(Some(AttachmentOutput(Some(SiteToSiteVpnAttachment(Some(pending), None)))), None);
    var answers := Answers(_ => reply, (_, _) => Reply(None, None), _ => None,
                           (_, _) => RawWait(NilValue, None));
    var client := new Client(answers);
    var d := new ResourceData("core-network", "vpn", 10, 10, false);
    d.id := id;
    var outcome := Delete(d, client, p);
    assert outcome == Failed(CannotDeleteInState(id, PendingAttachmentAcceptance));
    assert client.trace == [GetCall(id)];
    assert d.state == PendingAttachmentAcceptance;
  }
}
