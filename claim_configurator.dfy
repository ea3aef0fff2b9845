/** APIClaimConfigurator: after a composite has been reconciled, pulls its status and any spec
    fields the claim lacks back into the claim, persisting the claim's status and then the claim
    itself through the backing store. Each step runs only if the one before it succeeded. */
module ClaimConfigurator {
  import opened Values
  import opened Errors
  import opened Merge
  import opened Resources

  /** A call made on the store, with the claim as it was sent. */
  datatype Call = UpdateStatusCall(sent: ClaimState) | UpdateCall(sent: ClaimState)

  /** The claim after a call to Configure, the error it returned and the store calls it made. */
  datatype Configured = Configured(claim: ClaimState, err: Option<Error>, calls: seq<Call>)

  /** Two sub-documents a merge accepts: either is absent, or both are objects. */
  predicate Mergeable(dst: Option<Value>, src: Option<Value>)
  {
    dst.None? || src.None? || (dst.value.VObject? && src.value.VObject?)
  }

  /** Both sub-documents are present objects, so a merge has keys to combine. */
  predicate BothObjects(dst: Option<Value>, src: Option<Value>)
  {
    dst.Some? && src.Some? && dst.value.VObject? && src.value.VObject?
  }

  /** The error a merge of two sub-documents it does not accept reports: the destination's
      kind is checked before the source's. */
  function MergeError(dst: Option<Value>, src: Option<Value>): Error
    requires !Mergeable(dst, src)
  {
    if dst.value.VObject? then UnsupportedSrcObject else UnsupportedDstObject
  }

  /** Writes a merged sub-document back; an absent one means there was nothing to write. */
  function Put(content: Object, key: string, v: Option<Value>): Object
  {
    match v
    case None => content
    case Some(x) => content[key := x]
  }

  /** The store-call outcomes of one Configure pass are parameters: `statusUpdateErr` is what
      UpdateStatus returns, `updateErr` what Update returns. */
  function ConfiguredClaim(cm: ClaimState, cp: CompositeState, statusUpdateErr: Option<Error>, updateErr: Option<Error>)
    : (r: Configured)
    // Only the claim's document changes; a typed claim or composite is left alone.
    ensures r.claim.unstructured == cm.unstructured && r.claim.namespace == cm.namespace
    ensures r.claim.name == cm.name && r.claim.annotations == cm.annotations
    ensures !(cm.unstructured && cp.unstructured) ==> r == Configured(cm, None, [])
  {
    if !(cm.unstructured && cp.unstructured) then Configured(cm, None, [])
    else match MergeFields(Field(cm.content, "status"), Field(cp.content, "status"), CompositeOnlyStatusKeys, Overlay)
      case Err(e) => Configured(cm, Some(Wrapped(e, MergeClaimStatus)), [])
      case Ok(status) =>
        var withStatus := cm.(content := Put(cm.content, "status", status));
        if statusUpdateErr.Some? then
          Configured(withStatus, Wrap(statusUpdateErr, UpdateClaimStatus), [UpdateStatusCall(withStatus)])
        else match MergeFields(Field(withStatus.content, "spec"), Field(cp.content, "spec"), CompositeOnlySpecKeys, LateInit)
          case Err(e) => Configured(withStatus, Some(Wrapped(e, MergeClaimSpec)), [UpdateStatusCall(withStatus)])
          case Ok(spec) =>
            var withSpec := withStatus.(content := Put(withStatus.content, "spec", spec));
            Configured(withSpec, Wrap(updateErr, UpdateClaim), [UpdateStatusCall(withStatus), UpdateCall(withSpec)])
  }

  /** The order of the steps and the errors they report: each step runs only if the one before it
      succeeded, and each failure is wrapped with the step it happened in. */
  lemma ConfigureClaimFailFast(cm: ClaimState, cp: CompositeState, statusUpdateErr: Option<Error>, updateErr: Option<Error>)
    requires cm.unstructured && cp.unstructured
    ensures var r := ConfiguredClaim(cm, cp, statusUpdateErr, updateErr);
      var status, compositeStatus := Field(cm.content, "status"), Field(cp.content, "status");
      var spec, compositeSpec := Field(cm.content, "spec"), Field(cp.content, "spec");
      // A status the merge does not accept: the status merge error, nothing changed, no store call.
      && (!Mergeable(status, compositeStatus) ==>
            r == Configured(cm, Some(Wrapped(MergeError(status, compositeStatus), MergeClaimStatus)), []))
      // Otherwise UpdateStatus is called first, with the merged status and the spec not yet merged.
      && (Mergeable(status, compositeStatus) ==>
            && |r.calls| >= 1 && r.calls[0].UpdateStatusCall?
            && Field(r.calls[0].sent.content, "spec") == spec
            && r.calls[0].sent.content - {"spec"} == r.claim.content - {"spec"})
      // A failed status update: its error, wrapped; nothing more is done.
      && (Mergeable(status, compositeStatus) && statusUpdateErr.Some? ==>
            && r.err == Some(Wrapped(statusUpdateErr.value, UpdateClaimStatus))
            && r.calls == [UpdateStatusCall(r.claim)])
      // A spec the merge does not accept: the spec merge error, Update not called.
      && (Mergeable(status, compositeStatus) && statusUpdateErr.None? && !Mergeable(spec, compositeSpec) ==>
            && r.err == Some(Wrapped(MergeError(spec, compositeSpec), MergeClaimSpec))
            && r.calls == [UpdateStatusCall(r.claim)])
      // Otherwise Update is called with the final claim, and its error, if any, is wrapped.
      && (Mergeable(status, compositeStatus) && statusUpdateErr.None? && Mergeable(spec, compositeSpec) ==>
            && r.err == Wrap(updateErr, UpdateClaim)
            && |r.calls| == 2 && r.calls[1] == UpdateCall(r.claim))
      // Whenever the spec merge did not run, the spec is as it was.
      && (r.calls == [] || r.calls == [UpdateStatusCall(r.claim)] ==> Field(r.claim.content, "spec") == spec)
  {
  }

  /** What the two merges leave in the claim's document: `status` is overlaid from the composite's
      status, minus `conditions`; once the status update succeeded, `spec` is late-initialised from
      the composite's spec, minus the composite-only keys; nothing else is added, removed or changed. */
  lemma ConfigureClaimMerges(cm: ClaimState, cp: CompositeState, statusUpdateErr: Option<Error>, updateErr: Option<Error>)
    requires cm.unstructured && cp.unstructured
    requires Mergeable(Field(cm.content, "status"), Field(cp.content, "status"))
    ensures var r := ConfiguredClaim(cm, cp, statusUpdateErr, updateErr);
      var status, compositeStatus := Field(cm.content, "status"), Field(cp.content, "status");
      var spec, compositeSpec := Field(cm.content, "spec"), Field(cp.content, "spec");
      && r.claim.content.Keys == cm.content.Keys
      && r.claim.content - {"status", "spec"} == cm.content - {"status", "spec"}
      && (BothObjects(status, compositeStatus) ==>
            && "status" in r.claim.content && r.claim.content["status"].VObject?
            && MergedFrom(status.value.fields, compositeStatus.value.fields, CompositeOnlyStatusKeys, Overlay,
                          r.claim.content["status"].fields))
      && (!BothObjects(status, compositeStatus) ==> Field(r.claim.content, "status") == status)
      && (statusUpdateErr.None? && BothObjects(spec, compositeSpec) ==>
            && "spec" in r.claim.content && r.claim.content["spec"].VObject?
            && MergedFrom(spec.value.fields, compositeSpec.value.fields, CompositeOnlySpecKeys, LateInit,
                          r.claim.content["spec"].fields))
      && (statusUpdateErr.Some? || !BothObjects(spec, compositeSpec) ==> Field(r.claim.content, "spec") == spec)
  {
  }

  /** The backing store: each call returns the outcome it was set up with, and is logged with the
      claim it was given. */
  class ClaimStore {
    const statusUpdateErr: Option<Error>
    const updateErr: Option<Error>
    var calls: seq<Call>

    constructor (statusUpdateErr: Option<Error>, updateErr: Option<Error>)
      ensures this.statusUpdateErr == statusUpdateErr && this.updateErr == updateErr
      ensures calls == []
    {
      this.statusUpdateErr := statusUpdateErr;
      this.updateErr := updateErr;
      calls := [];
    }

    method UpdateStatus(cm: Claim) returns (err: Option<Error>)
      modifies this
      ensures calls == old(calls) + [UpdateStatusCall(cm.State())]
      ensures err == statusUpdateErr
    {
      calls := calls + [UpdateStatusCall(cm.State())];
      err := statusUpdateErr;
    }

    method Update(cm: Claim) returns (err: Option<Error>)
      modifies this
      ensures calls == old(calls) + [UpdateCall(cm.State())]
      ensures err == updateErr
    {
      calls := calls + [UpdateCall(cm.State())];
      err := updateErr;
    }
  }

  class APIClaimConfigurator {
    const client: ClaimStore

    constructor (client: ClaimStore)
      ensures this.client == client
    {
      this.client := client;
    }

    /** Configures `cm` from `cp` in place and persists it. */
    method Configure(cm: Claim, cp: Composite) returns (err: Option<Error>)
      modifies cm, client
      ensures var r := ConfiguredClaim(old(cm.State()), cp.State(), client.statusUpdateErr, client.updateErr);
        && cm.State() == r.claim
        && err == r.err
        && client.calls == old(client.calls) + r.calls
    {
      if !cm.unstructured || !cp.unstructured {
        return None;
      }
      var status := MergeFields(Field(cm.content, "status"), Field(cp.content, "status"), CompositeOnlyStatusKeys, Overlay);
      if status.Err? {
        return Some(Wrapped(status.error, MergeClaimStatus));
      }
      cm.content := Put(cm.content, "status", status.value);
      var e := client.UpdateStatus(cm);
      if e.Some? {
        return Wrap(e, UpdateClaimStatus);
      }
      var spec := MergeFields(Field(cm.content, "spec"), Field(cp.content, "spec"), CompositeOnlySpecKeys, LateInit);
      if spec.Err? {
        return Some(Wrapped(spec.error, MergeClaimSpec));
      }
      cm.content := Put(cm.content, "spec", spec.value);
      e := client.Update(cm);
      return Wrap(e, UpdateClaim);
    }
  }

  /** A second successful pass over the claim a successful pass left, against the same composite,
      changes nothing and sends that same claim to both store calls. */
  lemma {:induction false} ConfigureClaimIdempotent(cm: ClaimState, cp: CompositeState)
    requires ConfiguredClaim(cm, cp, None, None).err.None?
    ensures var once := ConfiguredClaim(cm, cp, None, None);
      ConfiguredClaim(once.claim, cp, None, None)
        == Configured(once.claim, None, if cm.unstructured && cp.unstructured
                                        then [UpdateStatusCall(once.claim), UpdateCall(once.claim)] else [])
  {
    var once := ConfiguredClaim(cm, cp, None, None);
    if cm.unstructured && cp.unstructured {
      var statusSrc, specSrc := Field(cp.content, "status"), Field(cp.content, "spec");
      var status := MergeFields(Field(cm.content, "status"), statusSrc, CompositeOnlyStatusKeys, Overlay);
      var withStatus := cm.(content := Put(cm.content, "status", status.value));
      var spec := MergeFields(Field(withStatus.content, "spec"), specSrc, CompositeOnlySpecKeys, LateInit);
      assert once.claim == withStatus.(content := Put(withStatus.content, "spec", spec.value));
      MergeFieldsIdempotent(Field(cm.content, "status"), statusSrc, CompositeOnlyStatusKeys, Overlay);
      MergeFieldsIdempotent(Field(withStatus.content, "spec"), specSrc, CompositeOnlySpecKeys, LateInit);
      assert Field(once.claim.content, "status") == status.value;
      assert Field(once.claim.content, "spec") == spec.value;
      assert Put(once.claim.content, "status", status.value) == once.claim.content;
      assert Put(once.claim.content, "spec", spec.value) == once.claim.content;
    }
  }

  /** The status merge leaves the claim's own conditions alone and takes every other status key
      the composite reports. */
  lemma StatusMergeKeepsConditions(cm: ClaimState, cp: CompositeState, statusUpdateErr: Option<Error>, updateErr: Option<Error>)
    requires cm.unstructured && cp.unstructured
    requires BothObjects(Field(cm.content, "status"), Field(cp.content, "status"))
    ensures var claimStatus, compositeStatus := cm.content["status"].fields, cp.content["status"].fields;
      var r := ConfiguredClaim(cm, cp, statusUpdateErr, updateErr);
      && "status" in r.claim.content && r.claim.content["status"].VObject?
      && var status := r.claim.content["status"].fields;
      && ("conditions" in status <==> "conditions" in claimStatus)
      && ("conditions" in claimStatus ==> status["conditions"] == claimStatus["conditions"])
      && (forall k :: k in compositeStatus && k != "conditions" ==> k in status && status[k] == compositeStatus[k])
      && (forall k :: k in status ==> k in claimStatus || k in compositeStatus)
  {
    ConfigureClaimMerges(cm, cp, statusUpdateErr, updateErr);
  }

  /** The spec merge keeps every key the claim already has, its claim-only keys included, and adds
      only keys the composite has that are not composite-only. */
  lemma SpecMergeOnlyFillsGaps(cm: ClaimState, cp: CompositeState, updateErr: Option<Error>)
    requires cm.unstructured && cp.unstructured
    requires Mergeable(Field(cm.content, "status"), Field(cp.content, "status"))
    requires BothObjects(Field(cm.content, "spec"), Field(cp.content, "spec"))
    ensures var claimSpec, compositeSpec := cm.content["spec"].fields, cp.content["spec"].fields;
      var r := ConfiguredClaim(cm, cp, None, updateErr);
      && "spec" in r.claim.content && r.claim.content["spec"].VObject?
      && var spec := r.claim.content["spec"].fields;
      && (forall k :: k in claimSpec ==> k in spec && spec[k] == claimSpec[k])
      && (forall k :: k in spec && k !in claimSpec ==>
            k in compositeSpec && k !in CompositeOnlySpecKeys && spec[k] == compositeSpec[k])
      && (forall k :: k in compositeSpec && k !in CompositeOnlySpecKeys ==> k in spec)
  {
    ConfigureClaimMerges(cm, cp, None, updateErr);
  }
}
