/** The ConfigureComposite cases, one lemma each: the claim and composite a case starts from and
    the composite and error it expects. Metadata other than the modelled fields is left out. */
module CompositeCases {
  import opened Values
  import opened Errors
  import opened Merge
  import opened Resources
  import opened CompositeConfigurator

  const Ns: string := "spacename"
  const Name: string := "cool"

  function BindingLabels(): map<string, string>
  {
    map[LabelKeyClaimNamespace := Ns, LabelKeyClaimName := Name]
  }

  function ExistingComposite(): CompositeState
  {
    CompositeState(true, true, Name, "", BindingLabels(),
      map[AnnotationKeyExternalName := Name, "xr" := "annotation"],
      map["spec" := VObject(map["coolness" := VInt(42)])])
  }

  function ExistingClaimSpec(): Object
  {
    map["coolness" := VInt(23), "resourceRef" := VString("ref"), "writeConnectionSecretToRef" := VString("ref")]
  }

  function ExistingClaim(externalName: string): ClaimState
  {
    ClaimState(true, Ns, Name, map[AnnotationKeyExternalName := externalName, "xrc" := "annotation"],
      map["spec" := VObject(ExistingClaimSpec())])
  }

  /** The annotations both existing-composite cases expect: the union, with the given external name. */
  function UnionAnnotations(externalName: string): map<string, string>
  {
    map[AnnotationKeyExternalName := externalName, "xr" := "annotation", "xrc" := "annotation"]
  }

  lemma ExistingXRFacts(externalName: string)
    ensures ClaimSpec(ExistingClaim(externalName)) == Some(ExistingClaimSpec())
    ensures Bind(ExistingClaim(externalName), ExistingComposite()) == ExistingComposite()
    ensures ExternalName(ExistingComposite().annotations) == Name
    ensures ExternalName(ExistingClaim(externalName).annotations) == externalName
    ensures ExistingComposite().annotations + ExistingClaim(externalName).annotations == UnionAnnotations(externalName)
  {
    BindingLabelsKept();
    AnnotationsUnion(externalName);
  }

  lemma BindingLabelsKept()
    ensures BindingLabels()[LabelKeyClaimNamespace := Ns][LabelKeyClaimName := Name] == BindingLabels()
  {
  }

  lemma AnnotationsUnion(externalName: string)
    ensures ExistingComposite().annotations + ExistingClaim(externalName).annotations == UnionAnnotations(externalName)
  {
  }

  lemma ExistingXRSpecFacts()
    ensures UnionAnnotations(Name)[AnnotationKeyExternalName := Name] == UnionAnnotations(Name)
    ensures FilterFields(ExistingClaimSpec(), ClaimOnlySpecKeys) == map["coolness" := VInt(23)]
  {
    assert FilterFields(ExistingClaimSpec(), ClaimOnlySpecKeys).Keys == {"coolness"};
  }

  const NewComposite: CompositeState := CompositeState(true, false, "", "", map[], map[], map[])
  const BoundNewComposite: CompositeState := CompositeState(true, false, "", Name + "-", BindingLabels(), map[], map[])

  lemma ClaimNotUnstructured()
    ensures ConfiguredComposite(ClaimState(false, Ns, Name, map[], map[]), NewComposite.(unstructured := false))
         == Configured(BoundNewComposite.(unstructured := false), None)
  {
  }

  lemma CompositeNotUnstructured()
    ensures ConfiguredComposite(ClaimState(true, Ns, Name, map[], map[]), NewComposite.(unstructured := false))
         == Configured(BoundNewComposite.(unstructured := false), None)
  {
  }

  lemma UnsupportedSpecError()
    ensures ConfiguredComposite(ClaimState(true, Ns, Name, map[], map["spec" := VString("wat")]), NewComposite)
         == Configured(BoundNewComposite, Some(UnsupportedClaimSpec))
  {
  }

  lemma ConfiguredNewXR()
    ensures var cm := ClaimState(true, Ns, Name, map[],
              map["spec" := VObject(map["coolness" := VInt(23),
                                        "compositionRef" := VString("ref"),
                                        "compositionSelector" := VString("ref"),
                                        "resourceRef" := VString("ref"),
                                        "writeConnectionSecretToRef" := VString("ref")])]);
      ConfiguredComposite(cm, NewComposite)
        == Configured(BoundNewComposite.(content := map["spec" := VObject(map["coolness" := VInt(23),
                                                          "compositionRef" := VString("ref"),
                                                          "compositionSelector" := VString("ref")])]),
                      None)
  {
    var spec := map["coolness" := VInt(23), "compositionRef" := VString("ref"),
                    "compositionSelector" := VString("ref"), "resourceRef" := VString("ref"),
                    "writeConnectionSecretToRef" := VString("ref")];
    var want := map["coolness" := VInt(23), "compositionRef" := VString("ref"),
                    "compositionSelector" := VString("ref")];
    assert FilterFields(spec, ClaimOnlySpecKeys).Keys == want.Keys;
    assert FilterFields(spec, ClaimOnlySpecKeys) == want;
    var cm := ClaimState(true, Ns, Name, map[], map["spec" := VObject(spec)]);
    assert ClaimSpec(cm) == Some(spec);
  }

  lemma ConfiguredExistingXR()
    ensures ConfiguredComposite(ExistingClaim(Name), ExistingComposite())
         == Configured(ExistingComposite().(annotations := UnionAnnotations(Name),
                                            content := map["spec" := VObject(map["coolness" := VInt(23)])]),
                       None)
  {
    ExistingXRFacts(Name);
    ExistingXRSpecFacts();
  }

  lemma NameMismatchExistingXR()
    ensures ConfiguredComposite(ExistingClaim("wat"), ExistingComposite())
         == Configured(ExistingComposite().(annotations := UnionAnnotations("wat")), Some(ExternalNameMismatch))
  {
    ExistingXRFacts("wat");
  }
}
