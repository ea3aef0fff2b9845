/** The two resources the configurators work on: a namespaced claim and the cluster-scoped
    composite it is bound to. Each is either unstructured (a generic document the configurators
    can read and write field by field) or typed (only its metadata is reachable). */
module Resources {
  import opened Values

  /** Well-known label and annotation keys, used verbatim. */
  const LabelKeyClaimNamespace: string := "crossplane.io/claim-namespace"
  const LabelKeyClaimName: string := "crossplane.io/claim-name"
  const AnnotationKeyExternalName: string := "crossplane.io/external-name"

  /** The external name a resource's annotations carry; empty when there is none. */
  function ExternalName(annotations: map<string, string>): string
  {
    if AnnotationKeyExternalName in annotations then annotations[AnnotationKeyExternalName] else ""
  }

  /** A claim as a value. `content` holds the document's fields other than its metadata
      (`spec`, `status`, ...); it is empty for a typed claim. */
  datatype ClaimState = ClaimState(
    unstructured: bool,
    namespace: string,
    name: string,
    annotations: map<string, string>,
    content: Object)

  /** A composite as a value. `wasCreated` says whether it already carries a creation timestamp,
      i.e. whether it exists in the store. */
  datatype CompositeState = CompositeState(
    unstructured: bool,
    wasCreated: bool,
    name: string,
    generateName: string,
    labels: map<string, string>,
    annotations: map<string, string>,
    content: Object)

  class Claim {
    const unstructured: bool
    var namespace: string
    var name: string
    var annotations: map<string, string>
    var content: Object

    constructor (s: ClaimState)
      ensures State() == s
    {
      unstructured := s.unstructured;
      namespace := s.namespace;
      name := s.name;
      annotations := s.annotations;
      content := s.content;
    }

    function State(): ClaimState
      reads this
    {
      ClaimState(unstructured, namespace, name, annotations, content)
    }
  }

  class Composite {
    const unstructured: bool
    var wasCreated: bool
    var name: string
    var generateName: string
    var labels: map<string, string>
    var annotations: map<string, string>
    var content: Object

    constructor (s: CompositeState)
      ensures State() == s
    {
      unstructured := s.unstructured;
      wasCreated := s.wasCreated;
      name := s.name;
      generateName := s.generateName;
      labels := s.labels;
      annotations := s.annotations;
      content := s.content;
    }

    function State(): CompositeState
      reads this
    {
      CompositeState(unstructured, wasCreated, name, generateName, labels, annotations, content)
    }
  }
}
