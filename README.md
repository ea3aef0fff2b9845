# Claim and composite configurators

This project models the two configurators that keep a composite resource claim (a namespaced
request for infrastructure) and the composite resource (XR) that satisfies it in step:

- `ConfigureComposite(ctx, claim, composite)` runs before the composite is persisted. It binds the
  composite to its claim: a `generateName` prefix for a composite that does not exist yet, and the
  claim-namespace and claim-name labels. Then, when both resources are unstructured documents, it
  copies the claim's annotations onto the composite. It refuses to go on when an existing
  composite's external name is contradicted by the claim's. Otherwise it writes the claim's spec,
  without the claim-only keys `resourceRef` and `writeConnectionSecretToRef`, as the composite's spec.
- `NewAPIClaimConfigurator(client).Configure(ctx, claim, composite)` runs after the composite has
  been reconciled. It overlays the composite's status onto the claim's, keeping the claim's own
  `conditions`. It persists the claim's status. It late-initialises the claim's spec from the
  composite's, without the composite-only keys `resourceRefs` and `claimRef`. Then it persists the
  claim. It stops at the first error and wraps it with the step that failed.

The repository's implementation file is not part of this model. The behaviour modelled is the one
its test file `internal/controller/apiextensions/claim/configurator_test.go` pins down, case by case.

Layout, one module per file:

- `values.dfy` (`Values`): the decoded document tree (`Value`, `Object`), field lookup and the
  checked cast to an object.
- `errors.dfy` (`Errors`): the error kinds, the wrapping contexts and `Result`.
- `merge.dfy` (`Merge`): the reserved key sets, the one-level filter, overlay and late-init
  primitives, and `MergeFields`. `MergeFields` merges one possibly absent sub-document into another
  and type-checks both, the destination first.
- `resources.dfy` (`Resources`): the claim and the composite as value types (`ClaimState`,
  `CompositeState`) and as classes (`Claim`, `Composite`) whose fields the configurators update in place.
- `composite_configurator.dfy` (`CompositeConfigurator`): `ConfiguredComposite`, the function that
  specifies the outcome of a call; the in-place method `ConfigureComposite` proved against it; and
  lemmas about repeated calls.
- `claim_configurator.dfy` (`ClaimConfigurator`): `ConfiguredClaim`, the specification; the store
  (`ClaimStore`), whose calls return fixed outcomes and are logged with the claim they were sent;
  `APIClaimConfigurator` with its in-place `Configure`; and lemmas about the merges and repeated passes.
- `composite_cases.dfy`, `claim_cases.dfy`: each test case as a lemma, from its inputs to its
  expected object and error.

The model takes these decisions. Each rests on the cases it cites, or is marked as assumed where
no case fixes it:

- `generateName` is set only on a composite that does not exist yet. The two existing-composite
  cases (lines 246-272 and 329-356) expect no `generateName`. The binding labels are set on every path.
- The claim's annotations overwrite the composite's on the same key. Line 345 shows the claim's
  external name replacing the composite's. After a successful call, an existing composite keeps its
  own non-empty external name (assumed; no case exercises it).
- The claim's filtered spec replaces the composite's spec rather than being overlaid on it (assumed;
  no case tells the two apart). Replacement is what makes "the claim-only keys never appear in the
  composite's spec" hold for every composite.
- A field that holds null reads as absent, as a lookup in a decoded document gives nil for both
  (assumed; no case has a null field). So a null `status` or `spec` makes its merge a no-op.

One consequence is proved as `MismatchNotReportedTwice`. An external-name mismatch leaves the
claim's external name in the in-memory composite. So a second call with the same claim, on that
composite, succeeds and writes the spec. The "not reconciled" outcome at line 351 holds only for the
first call. `ConfigureCompositeIdempotent` shows that every other outcome is stable under a second call.

## Model

| member | source | states |
|---|---|---|
| Merge.FilterFields | internal/controller/apiextensions/claim/configurator_test.go:157-185 | the copy keeps exactly the keys not blocked, with their values (claim-only keys dropped, `compositionRef`/`compositionSelector` kept) |
| Merge.OverlayMerge | internal/controller/apiextensions/claim/configurator_test.go:633-686 | the result has the keys of both objects; a source key always wins; a destination-only key keeps its value |
| Merge.LateInitMerge | internal/controller/apiextensions/claim/configurator_test.go:570-611 | the result has the keys of both objects; a destination key always keeps its value; a source-only key is filled in |
| Merge.MergeFields | internal/controller/apiextensions/claim/configurator_test.go:395-522 | absent operand: nothing to do; a destination that is not an object fails with UnsupportedDstObject before the source is looked at; a source that is not an object fails with UnsupportedSrcObject; two objects give the key-by-key merge of the filtered source |
| Merge.MergeFieldsIdempotent | internal/controller/apiextensions/claim/configurator_test.go:559-690 | merging the same source into an already merged result changes nothing |
| CompositeConfigurator.Bind | internal/controller/apiextensions/claim/configurator_test.go:72-82 | afterwards the composite's binding labels name the claim's namespace and name; other labels are kept; `generateName` is `<claim name>-` for a composite not yet created and untouched otherwise |
| CompositeConfigurator.ConfiguredComposite | internal/controller/apiextensions/claim/configurator_test.go:61-357 | binding on every path; typed resource: binding only, no error; claim spec not an object: binding only, UnsupportedClaimSpec; ExternalNameMismatch exactly when the composite exists, has an external name and the claim's is non-empty and different, in which case the annotations are already the union (claim wins) and the spec is untouched; on success the spec is exactly the claim's minus `resourceRef`/`writeConnectionSecretToRef`, the annotations are the union with the claim's values, and an existing composite keeps its external name; name, creation and non-spec fields never change |
| CompositeConfigurator.ConfigureComposite | internal/controller/apiextensions/claim/configurator_test.go:360-369 | updating the composite in place leaves it exactly as ConfiguredComposite says, and returns its error |
| CompositeConfigurator.ConfigureCompositeIdempotent | internal/controller/apiextensions/claim/configurator_test.go:191-273 | unless the first call reported a mismatch, a second call with the same claim leaves the composite as the first left it and returns the same error |
| CompositeConfigurator.MismatchNotReportedTwice | internal/controller/apiextensions/claim/configurator_test.go:274-357 | after a mismatch, a second call on the resulting composite succeeds, adopts the claim's external name and writes the claim's filtered spec |
| CompositeCases.ClaimNotUnstructured | internal/controller/apiextensions/claim/configurator_test.go:61-83 | a typed claim: only `generateName` and the binding labels are set, no error |
| CompositeCases.CompositeNotUnstructured | internal/controller/apiextensions/claim/configurator_test.go:84-110 | a typed composite: only `generateName` and the binding labels are set, no error |
| CompositeCases.UnsupportedSpecError | internal/controller/apiextensions/claim/configurator_test.go:111-143 | a string spec: UnsupportedClaimSpec, binding metadata set, no spec |
| CompositeCases.ConfiguredNewXR | internal/controller/apiextensions/claim/configurator_test.go:144-190 | a new composite gets the claim's spec without the claim-only keys |
| CompositeCases.ConfiguredExistingXR | internal/controller/apiextensions/claim/configurator_test.go:191-273 | an existing composite with the same external name: coolness 42 becomes 23, annotations are the union, name, creation and labels unchanged |
| CompositeCases.NameMismatchExistingXR | internal/controller/apiextensions/claim/configurator_test.go:274-357 | a different external name: ExternalNameMismatch, annotations already copied (external name "wat", "xrc" added), coolness stays 42 |
| ClaimConfigurator.ConfiguredClaim | internal/controller/apiextensions/claim/configurator_test.go:395-691 | a pass never changes the claim's namespace, name or annotations; with a typed claim or composite it does nothing, returns no error and calls no store |
| ClaimConfigurator.ConfigureClaimFailFast | internal/controller/apiextensions/claim/configurator_test.go:395-558 | a status merge error is wrapped as MergeClaimStatus, with nothing changed and no store call; otherwise UpdateStatus comes first and is sent the merged status with the spec not yet merged; its failure is wrapped as UpdateClaimStatus and ends the pass; a spec merge error is wrapped as MergeClaimSpec and Update is not called; otherwise Update is sent the final claim and its failure is wrapped as UpdateClaim; the spec is untouched whenever its merge did not run |
| ClaimConfigurator.ConfigureClaimMerges | internal/controller/apiextensions/claim/configurator_test.go:559-691 | the claim's document keeps its keys and every field but `status` and `spec`; two status objects give the key-by-key overlay of the composite's status minus `conditions`; after a successful status update, two spec objects give the key-by-key late-init of the composite's spec minus `resourceRefs`/`claimRef`; an absent side leaves that field as it was |
| ClaimConfigurator.ClaimStore.constructor | internal/controller/apiextensions/claim/configurator_test.go:456-458 | a store set up with the outcome of each call and an empty call log |
| ClaimConfigurator.ClaimStore.UpdateStatus | internal/controller/apiextensions/claim/configurator_test.go:456-458 | logs a status update of the claim as given and returns the configured outcome |
| ClaimConfigurator.ClaimStore.Update | internal/controller/apiextensions/claim/configurator_test.go:526-529 | logs an update of the claim as given and returns the configured outcome |
| ClaimConfigurator.APIClaimConfigurator.constructor | internal/controller/apiextensions/claim/configurator_test.go:696 | a configurator bound to the given store |
| ClaimConfigurator.APIClaimConfigurator.Configure | internal/controller/apiextensions/claim/configurator_test.go:694-704 | updating the claim in place leaves it, the error and the store's call log exactly as ConfiguredClaim says; the composite is not modified |
| ClaimConfigurator.ConfigureClaimIdempotent | internal/controller/apiextensions/claim/configurator_test.go:559-690 | a second successful pass over the claim the first produced changes nothing and sends that claim to both store calls |
| ClaimConfigurator.StatusMergeKeepsConditions | internal/controller/apiextensions/claim/configurator_test.go:618-690 | the claim keeps its own `conditions` (present exactly when it had them), takes every other status key of the composite, and gains no key from elsewhere |
| ClaimConfigurator.SpecMergeOnlyFillsGaps | internal/controller/apiextensions/claim/configurator_test.go:559-617 | every claim spec key, `resourceRef` and `writeConnectionSecretToRef` included, keeps its value; every added key comes from the composite and is neither `resourceRefs` nor `claimRef`; every other composite key is added |
| ClaimCases.MergeStatusClaimError | internal/controller/apiextensions/claim/configurator_test.go:395-423 | a string claim status: Wrap(UnsupportedDstObject, MergeClaimStatus), claim unchanged, no store call, whatever the store would return |
| ClaimCases.MergeStatusCompositeError | internal/controller/apiextensions/claim/configurator_test.go:424-452 | an object claim status and a string composite status: Wrap(UnsupportedSrcObject, MergeClaimStatus), claim unchanged, no store call |
| ClaimCases.UpdateStatusError | internal/controller/apiextensions/claim/configurator_test.go:453-487 | a failing status update: Wrap(boom, UpdateClaimStatus), claim unchanged, Update never called |
| ClaimCases.MergeSpecError | internal/controller/apiextensions/claim/configurator_test.go:488-522 | a string claim spec: Wrap(UnsupportedDstObject, MergeClaimSpec) after one status update, Update never called |
| ClaimCases.UpdateClaimError | internal/controller/apiextensions/claim/configurator_test.go:523-558 | a failing update: Wrap(boom, UpdateClaim) after both calls, claim unchanged |
| ClaimCases.LateInitializeClaim | internal/controller/apiextensions/claim/configurator_test.go:559-617 | coolness 23 is filled in, `someField` and the claim-only keys are kept, `resourceRefs`/`claimRef` are not copied |
| ClaimCases.ConfigureStatus | internal/controller/apiextensions/claim/configurator_test.go:618-691 | previousCoolness 23 becomes 28, the claim's own condition is kept, the spec is unchanged |

## Left out

- The implementation file is not part of this model. Its behaviour is taken from the test cases; where no case decides, the choice above or below is marked as assumed.
- A claim without any `spec` (or with a null one) is treated like a claim whose spec is not an object, and ConfigureComposite fails with `UnsupportedClaimSpec` (assumed; no case fixes it, since the one claim without a spec, lines 84-110, meets a typed composite and returns early).
- Contexts (`ctx`) and cancellation: they only reach the store calls, and these are modelled by their outcomes.
- The store client: each call returns the outcome the store was set up with and does not change the claim (no resource version, no defaulting). Conflicts, retries and the network are out of scope.
- Kubernetes object decoding, the typed `fake` resources and timestamp marshalling. A resource is unstructured or typed by a flag. Its metadata is reduced to namespace, name, `generateName`, labels and annotations, and "has a creation timestamp" is the flag `wasCreated`.
- The label and annotation keys are opaque constants (`crossplane.io/claim-namespace`, `crossplane.io/claim-name`, `crossplane.io/external-name`). The model does not derive them.
- Writing the composite's external name back into the claim (external-name adoption on the claim side): no case shows it.
- Propagating the claim's other labels to the composite: no case shows it.
- Deep merging: both merges work on one level of keys and replace nested documents whole. The empty-value rules of the Go merge library (an empty source value not overriding, an empty destination value being filled) are not modelled.
- The reserved key sets are module constants, not configuration passed to the configurators.
- ClaimConfigurator.APIClaimConfigurator.Configure: the early return for a typed claim or composite takes ConfigureComposite's capability check as its model. No case exercises it.
