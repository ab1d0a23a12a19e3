/** The Kubernetes part of a test-runner configuration
    (KubernetesSpecification), read from a JSON file and validated. */
module Kubernetes {
  import opened Common

  datatype KubernetesSpecification = KubernetesSpecification(numberOfInitialPods: int)

  /** The value a specification has when the file does not set it. */
  const DefaultSpecification := KubernetesSpecification(1)

  /** The text of the IllegalArgumentException; it says ">= 0" although 0
      itself is rejected. */
  const InvalidPodsMessage := "Number of initial Kubernetes pods must be >= 0"

  /** validate: the error it throws, if any. Being a function, it changes
      nothing in the specification. */
  function Validate(spec: KubernetesSpecification): (r: Option<string>)
    ensures r.Some? <==> spec.numberOfInitialPods < 1
    ensures r.Some? ==> r.value == InvalidPodsMessage
  {
    if spec.numberOfInitialPods <= 0 then Some(InvalidPodsMessage) else None
  }

  /** The default passes; zero pods fails, whatever the message says. */
  lemma ValidateEdges()
    ensures Validate(DefaultSpecification).None?
    ensures Validate(KubernetesSpecification(0)) == Some(InvalidPodsMessage)
    ensures forall n: int :: n >= 1 <==> Validate(KubernetesSpecification(n)).None?
  {
  }
}
