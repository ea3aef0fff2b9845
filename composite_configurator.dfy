/** ConfigureComposite: configures a composite resource from the claim it is bound to, in place.
    It binds the composite to the claim, then (for unstructured resources only) copies the claim's
    annotations and its spec, minus the claim-only keys, onto the composite, refusing to touch the
    spec of an existing composite whose external name the claim contradicts. */
module CompositeConfigurator {
  import opened Values
  import opened Errors
  import opened Merge
  import opened Resources

  /** The composite after a call, with the error the call returned. */
  datatype Configured = Configured(composite: CompositeState, err: Option<Error>)

  /** The composite's two binding labels name the claim. */
  predicate BoundTo(cm: ClaimState, cp: CompositeState)
  {
    && LabelKeyClaimNamespace in cp.labels && cp.labels[LabelKeyClaimNamespace] == cm.namespace
    && LabelKeyClaimName in cp.labels && cp.labels[LabelKeyClaimName] == cm.name
  }

  /** The claim's spec if it is an object; nothing when it is absent or of another kind. */
  function ClaimSpec(cm: ClaimState): Option<Object>
  {
    match Field(cm.content, "spec")
    case Some(VObject(fields)) => Some(fields)
    case _ => None
  }

  /** An existing composite has an external name, and the claim asks for a different one. */
  predicate NameConflict(cm: ClaimState, cp: CompositeState)
  {
    && cp.wasCreated
    && ExternalName(cp.annotations) != ""
    && ExternalName(cm.annotations) != ""
    && ExternalName(cm.annotations) != ExternalName(cp.annotations)
  }

  /** An existing composite has an external name, which is kept whatever the claim carries. */
  predicate KeepsExternalName(cp: CompositeState)
  {
    cp.wasCreated && ExternalName(cp.annotations) != ""
  }

  /** The metadata written before anything can fail: a name prefix for a composite that does not
      exist yet, and the binding labels. */
  function Bind(cm: ClaimState, cp: CompositeState): (r: CompositeState)
    ensures BoundTo(cm, r)
    ensures r.generateName == if cp.wasCreated then cp.generateName else cm.name + "-"
    ensures r.labels.Keys == cp.labels.Keys + {LabelKeyClaimNamespace, LabelKeyClaimName}
    ensures forall k :: k in cp.labels && k != LabelKeyClaimNamespace && k != LabelKeyClaimName ==>
      r.labels[k] == cp.labels[k]
    ensures r == cp.(generateName := r.generateName, labels := r.labels)
  {
    cp.(generateName := if cp.wasCreated then cp.generateName else cm.name + "-",
        labels := cp.labels[LabelKeyClaimNamespace := cm.namespace][LabelKeyClaimName := cm.name])
  }

  /** What ConfigureComposite leaves in the composite, and what it returns. */
  function ConfiguredComposite(cm: ClaimState, cp: CompositeState): (r: Configured)
    // Binding, on every path; identity, creation and every document field but `spec` untouched.
    ensures BoundTo(cm, r.composite)
    ensures r.composite.generateName == Bind(cm, cp).generateName
    ensures r.composite.labels == Bind(cm, cp).labels
    ensures r.composite.unstructured == cp.unstructured && r.composite.wasCreated == cp.wasCreated
    ensures r.composite.name == cp.name
    ensures r.composite.content - {"spec"} == cp.content - {"spec"}
    // A typed claim or composite: binding only, no error.
    ensures !(cm.unstructured && cp.unstructured) ==> r == Configured(Bind(cm, cp), None)
    // A claim spec that is not an object: binding only, and the error.
    ensures cm.unstructured && cp.unstructured && ClaimSpec(cm).None? ==>
      r == Configured(Bind(cm, cp), Some(UnsupportedClaimSpec))
    // The only errors, and exactly when the external-name one occurs.
    ensures r.err.None? || r.err == Some(UnsupportedClaimSpec) || r.err == Some(ExternalNameMismatch)
    ensures r.err == Some(ExternalNameMismatch) <==>
      cm.unstructured && cp.unstructured && ClaimSpec(cm).Some? && NameConflict(cm, cp)
    // On a conflict the claim's annotations are already copied (the claim's win) but the spec is not.
    ensures r.err == Some(ExternalNameMismatch) ==>
      && r.composite.annotations == cp.annotations + cm.annotations
      && r.composite.content == cp.content
    // On success: the spec is the claim's, without the claim-only keys.
    ensures cm.unstructured && cp.unstructured && r.err.None? ==>
      && "spec" in r.composite.content && r.composite.content["spec"].VObject?
      && var spec, claimSpec := r.composite.content["spec"].fields, ClaimSpec(cm).value;
      && (forall k :: k in spec <==> k in claimSpec && k !in ClaimOnlySpecKeys)
      && (forall k :: k in spec ==> spec[k] == claimSpec[k])
    // On success: the union of both annotation sets, the claim's value winning, except that an
    // existing composite keeps its own external name.
    ensures cm.unstructured && cp.unstructured && r.err.None? ==>
      && var ann := r.composite.annotations;
      && ann.Keys == cp.annotations.Keys + cm.annotations.Keys
      && (forall k :: k in cm.annotations && !(k == AnnotationKeyExternalName && KeepsExternalName(cp)) ==>
            ann[k] == cm.annotations[k])
      && (forall k :: k in cp.annotations && k !in cm.annotations ==> ann[k] == cp.annotations[k])
      && (KeepsExternalName(cp) ==> ExternalName(ann) == ExternalName(cp.annotations))
  {
    var bound := Bind(cm, cp);
    if !(cm.unstructured && cp.unstructured) then Configured(bound, None)
    else match ClaimSpec(cm)
      case None => Configured(bound, Some(UnsupportedClaimSpec))
      case Some(spec) =>
        var annotated := bound.(annotations := cp.annotations + cm.annotations);
        if NameConflict(cm, cp) then Configured(annotated, Some(ExternalNameMismatch))
        else
          var annotations :=
            if KeepsExternalName(cp)
            then annotated.annotations[AnnotationKeyExternalName := ExternalName(cp.annotations)]
            else annotated.annotations;
          Configured(
            annotated.(annotations := annotations,
                       content := annotated.content["spec" := VObject(FilterFields(spec, ClaimOnlySpecKeys))]),
            None)
  }

  /** Configures `cp` from `cm` in place. */
  method ConfigureComposite(cm: Claim, cp: Composite) returns (err: Option<Error>)
    modifies cp
    ensures var r := ConfiguredComposite(cm.State(), old(cp.State()));
      cp.State() == r.composite && err == r.err
  {
    if !cp.wasCreated {
      cp.generateName := cm.name + "-";
    }
    cp.labels := cp.labels[LabelKeyClaimNamespace := cm.namespace][LabelKeyClaimName := cm.name];
    if !cm.unstructured || !cp.unstructured {
      return None;
    }
    var spec := Field(cm.content, "spec");
    if spec.None? || !spec.value.VObject? {
      return Some(UnsupportedClaimSpec);
    }
    var en := ExternalName(cp.annotations);
    cp.annotations := cp.annotations + cm.annotations;
    if cp.wasCreated && en != "" {
      var cen := ExternalName(cm.annotations);
      if cen != "" && cen != en {
        return Some(ExternalNameMismatch);
      }
      cp.annotations := cp.annotations[AnnotationKeyExternalName := en];
    }
    cp.content := cp.content["spec" := VObject(FilterFields(spec.value.fields, ClaimOnlySpecKeys))];
    return None;
  }

  /** A second call on the composite a first call left, with the same claim, changes nothing and
      returns the same result, unless the first call reported an external-name mismatch. */
  lemma {:induction false} ConfigureCompositeIdempotent(cm: ClaimState, cp: CompositeState)
    requires ConfiguredComposite(cm, cp).err != Some(ExternalNameMismatch)
    ensures var once := ConfiguredComposite(cm, cp);
      ConfiguredComposite(cm, once.composite) == once
  {
  }

  /** After an external-name mismatch the composite carries the claim's external name, so a second
      call on it with the same claim no longer reports the mismatch and does write the spec. */
  lemma {:induction false} MismatchNotReportedTwice(cm: ClaimState, cp: CompositeState)
    requires ConfiguredComposite(cm, cp).err == Some(ExternalNameMismatch)
    ensures var twice := ConfiguredComposite(cm, ConfiguredComposite(cm, cp).composite);
      && twice.err.None?
      && ExternalName(twice.composite.annotations) == ExternalName(cm.annotations)
      && twice.composite.content["spec"] == VObject(FilterFields(ClaimSpec(cm).value, ClaimOnlySpecKeys))
  {
  }
}
