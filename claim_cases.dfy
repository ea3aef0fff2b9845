/** The APIClaimConfigurator cases, one lemma each: the claim, composite and store outcomes a case
    starts from, and the claim, error and store calls it expects. A store call the case's mock
    leaves undefined would fail the case, so those cases hold for any outcome of that call. */
module ClaimCases {
  import opened Values
  import opened Errors
  import opened Merge
  import opened Resources
  import opened ClaimConfigurator

  const Ns: string := "spacename"
  const Name: string := "cool"
  const Boom: Error := StoreError("boom")

  function Claim(ns: string, name: string, content: Object): ClaimState
  {
    ClaimState(true, ns, name, map[], content)
  }

  function Composite(name: string, content: Object): CompositeState
  {
    CompositeState(true, false, name, "", map[], map[], content)
  }

  const Empty: Object := map["spec" := VObject(map[]), "status" := VObject(map[])]

  lemma MergeStatusClaimError(statusUpdateErr: Option<Error>, updateErr: Option<Error>)
    ensures var cm := Claim("", "", map["status" := VString("notStatus")]);
      ConfiguredClaim(cm, Composite("", map["status" := VString("notStatus")]), statusUpdateErr, updateErr)
        == Configured(cm, Some(Wrapped(UnsupportedDstObject, MergeClaimStatus)), [])
  {
  }

  lemma MergeStatusCompositeError(statusUpdateErr: Option<Error>, updateErr: Option<Error>)
    ensures var cm := Claim("", "", map["status" := VObject(map[])]);
      ConfiguredClaim(cm, Composite("", map["status" := VString("notStatus")]), statusUpdateErr, updateErr)
        == Configured(cm, Some(Wrapped(UnsupportedSrcObject, MergeClaimStatus)), [])
  {
  }

  lemma UpdateStatusError(updateErr: Option<Error>)
    ensures var cm := Claim("", "", Empty);
      ConfiguredClaim(cm, Composite("", Empty), Some(Boom), updateErr)
        == Configured(cm, Some(Wrapped(Boom, UpdateClaimStatus)), [UpdateStatusCall(cm)])
  {
    assert FilterFields(map[], CompositeOnlyStatusKeys) == map[];
    assert Empty["status" := VObject(map[])] == Empty;
  }

  lemma MergeSpecError(updateErr: Option<Error>)
    ensures var cm := Claim("", "", map["spec" := VString("notSpec"), "status" := VObject(map[])]);
      var cp := Composite("", map["spec" := VString("notSpec"), "status" := VObject(map[])]);
      ConfiguredClaim(cm, cp, None, updateErr)
        == Configured(cm, Some(Wrapped(UnsupportedDstObject, MergeClaimSpec)), [UpdateStatusCall(cm)])
  {
    var content := map["spec" := VString("notSpec"), "status" := VObject(map[])];
    assert FilterFields(map[], CompositeOnlyStatusKeys) == map[];
    assert content["status" := VObject(map[])] == content;
  }

  lemma UpdateClaimError()
    ensures var cm := Claim("", "", Empty);
      ConfiguredClaim(cm, Composite("", Empty), None, Some(Boom))
        == Configured(cm, Some(Wrapped(Boom, UpdateClaim)), [UpdateStatusCall(cm), UpdateCall(cm)])
  {
    assert FilterFields(map[], CompositeOnlyStatusKeys) == map[];
    assert FilterFields(map[], CompositeOnlySpecKeys) == map[];
    assert Empty["status" := VObject(map[])] == Empty;
    assert Empty["spec" := VObject(map[])] == Empty;
  }

  // LateInitializeClaim: the claim's spec, the composite's, and the spec the claim should end with.

  function LateInitClaimSpec(): Object
  {
    map["someField" := VString("someValue"), "resourceRef" := VString("ref"),
        "writeConnectionSecretToRef" := VString("ref")]
  }

  function LateInitCompositeSpec(): Object
  {
    map["coolness" := VInt(23), "resourceRefs" := VString("ref"), "claimRef" := VString("ref")]
  }

  function LateInitWantSpec(): Object
  {
    map["someField" := VString("someValue"), "coolness" := VInt(23),
        "resourceRef" := VString("ref"), "writeConnectionSecretToRef" := VString("ref")]
  }

  lemma LateInitSpecMerged()
    ensures MergeFields(Some(VObject(LateInitClaimSpec())), Some(VObject(LateInitCompositeSpec())),
                        CompositeOnlySpecKeys, LateInit)
         == Ok(Some(VObject(LateInitWantSpec())))
  {
    assert FilterFields(LateInitCompositeSpec(), CompositeOnlySpecKeys).Keys == {"coolness"};
    assert FilterFields(LateInitCompositeSpec(), CompositeOnlySpecKeys) == map["coolness" := VInt(23)];
    assert LateInitMerge(LateInitClaimSpec(), map["coolness" := VInt(23)]) == LateInitWantSpec();
  }

  lemma EmptyStatusMerged()
    ensures MergeFields(Some(VObject(map[])), Some(VObject(map[])), CompositeOnlyStatusKeys, Overlay)
         == Ok(Some(VObject(map[])))
  {
    assert FilterFields(map[], CompositeOnlyStatusKeys) == map[];
  }

  /** A pass whose two merges give `status` and `spec` and whose store calls both succeed. */
  lemma PassSucceeds(cm: ClaimState, cp: CompositeState, status: Object, spec: Object)
    requires cm.unstructured && cp.unstructured
    requires MergeFields(Field(cm.content, "status"), Field(cp.content, "status"), CompositeOnlyStatusKeys, Overlay)
          == Ok(Some(VObject(status)))
    requires MergeFields(Field(cm.content, "spec"), Field(cp.content, "spec"), CompositeOnlySpecKeys, LateInit)
          == Ok(Some(VObject(spec)))
    ensures var withStatus := cm.(content := cm.content["status" := VObject(status)]);
      var done := withStatus.(content := withStatus.content["spec" := VObject(spec)]);
      ConfiguredClaim(cm, cp, None, None) == Configured(done, None, [UpdateStatusCall(withStatus), UpdateCall(done)])
  {
    var withStatus := cm.(content := cm.content["status" := VObject(status)]);
    assert Field(withStatus.content, "spec") == Field(cm.content, "spec");
  }

  function LateInitClaimContent(): Object
  {
    map["spec" := VObject(LateInitClaimSpec()), "status" := VObject(map[])]
  }

  function LateInitCompositeContent(): Object
  {
    map["spec" := VObject(LateInitCompositeSpec()), "status" := VObject(map[])]
  }

  function LateInitWantContent(): Object
  {
    map["spec" := VObject(LateInitWantSpec()), "status" := VObject(map[])]
  }

  lemma LateInitContents()
    ensures Field(LateInitClaimContent(), "status") == Some(VObject(map[]))
    ensures Field(LateInitCompositeContent(), "status") == Some(VObject(map[]))
    ensures Field(LateInitClaimContent(), "spec") == Some(VObject(LateInitClaimSpec()))
    ensures Field(LateInitCompositeContent(), "spec") == Some(VObject(LateInitCompositeSpec()))
    ensures LateInitClaimContent()["status" := VObject(map[])] == LateInitClaimContent()
    ensures LateInitClaimContent()["spec" := VObject(LateInitWantSpec())] == LateInitWantContent()
  {
  }

  lemma LateInitializeClaim()
    ensures var cm := Claim(Ns, Name, LateInitClaimContent());
      var want := Claim(Ns, Name, LateInitWantContent());
      ConfiguredClaim(cm, Composite(Name + "-12345", LateInitCompositeContent()), None, None)
        == Configured(want, None, [UpdateStatusCall(cm), UpdateCall(want)])
  {
    LateInitContents();
    EmptyStatusMerged();
    LateInitSpecMerged();
    PassSucceeds(Claim(Ns, Name, LateInitClaimContent()), Composite(Name + "-12345", LateInitCompositeContent()),
                 map[], LateInitWantSpec());
  }

  // ConfigureStatus: the claim's status, the composite's, and the status the claim should end with.

  function ConditionsOf(conditionType: string): Value
  {
    VList([VObject(map["type" := VString(conditionType)])])
  }

  function ClaimStatus(): Object
  {
    map["previousCoolness" := VInt(23), "conditions" := ConditionsOf("someCondition")]
  }

  function CompositeStatus(): Object
  {
    map["previousCoolness" := VInt(28), "conditions" := ConditionsOf("otherCondition")]
  }

  function WantStatus(): Object
  {
    map["previousCoolness" := VInt(28), "conditions" := ConditionsOf("someCondition")]
  }

  function ClaimOnlySpec(): Object
  {
    map["resourceRef" := VString("ref"), "writeConnectionSecretToRef" := VString("ref")]
  }

  function CompositeOnlySpec(): Object
  {
    map["resourceRefs" := VString("ref"), "claimRef" := VString("ref")]
  }

  lemma StatusMerged()
    ensures MergeFields(Some(VObject(ClaimStatus())), Some(VObject(CompositeStatus())), CompositeOnlyStatusKeys, Overlay)
         == Ok(Some(VObject(WantStatus())))
  {
    assert FilterFields(CompositeStatus(), CompositeOnlyStatusKeys).Keys == {"previousCoolness"};
    assert FilterFields(CompositeStatus(), CompositeOnlyStatusKeys) == map["previousCoolness" := VInt(28)];
    assert OverlayMerge(ClaimStatus(), map["previousCoolness" := VInt(28)]) == WantStatus();
  }

  lemma ReservedSpecMerged()
    ensures MergeFields(Some(VObject(ClaimOnlySpec())), Some(VObject(CompositeOnlySpec())), CompositeOnlySpecKeys, LateInit)
         == Ok(Some(VObject(ClaimOnlySpec())))
  {
    assert FilterFields(CompositeOnlySpec(), CompositeOnlySpecKeys).Keys == {};
    assert FilterFields(CompositeOnlySpec(), CompositeOnlySpecKeys) == map[];
    assert LateInitMerge(ClaimOnlySpec(), map[]) == ClaimOnlySpec();
  }

  function StatusClaimContent(): Object
  {
    map["spec" := VObject(ClaimOnlySpec()), "status" := VObject(ClaimStatus())]
  }

  function StatusCompositeContent(): Object
  {
    map["spec" := VObject(CompositeOnlySpec()), "status" := VObject(CompositeStatus())]
  }

  function StatusWantContent(): Object
  {
    map["spec" := VObject(ClaimOnlySpec()), "status" := VObject(WantStatus())]
  }

  lemma StatusContents()
    ensures Field(StatusClaimContent(), "status") == Some(VObject(ClaimStatus()))
    ensures Field(StatusCompositeContent(), "status") == Some(VObject(CompositeStatus()))
    ensures Field(StatusClaimContent(), "spec") == Some(VObject(ClaimOnlySpec()))
    ensures Field(StatusCompositeContent(), "spec") == Some(VObject(CompositeOnlySpec()))
    ensures StatusClaimContent()["status" := VObject(WantStatus())] == StatusWantContent()
    ensures StatusWantContent()["spec" := VObject(ClaimOnlySpec())] == StatusWantContent()
  {
  }

  lemma ConfigureStatus()
    ensures var want := Claim(Ns, Name, StatusWantContent());
      ConfiguredClaim(Claim(Ns, Name, StatusClaimContent()), Composite(Name + "-12345", StatusCompositeContent()), None, None)
        == Configured(want, None, [UpdateStatusCall(want), UpdateCall(want)])
  {
    StatusContents();
    StatusMerged();
    ReservedSpecMerged();
    PassSucceeds(Claim(Ns, Name, StatusClaimContent()), Composite(Name + "-12345", StatusCompositeContent()),
                 WantStatus(), ClaimOnlySpec());
  }
}
