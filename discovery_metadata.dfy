/** `extractPodMetadata`: the Pod's labels and annotations for the agent. */
module Metadata {
  import opened Kube
  import opened DiscoveryTypes

  /** Every label and every annotation, key for key and value for value; no
      key is filtered out, reserved prefixes such as `kubernetes.io/`
      included, and a Pod without labels or annotations gives empty maps. */
  function ExtractPodMetadata(pod: PodObject): (md: DiscoveryMetadata)
    ensures md.labels.Keys == pod.labels.Keys
    ensures forall k :: k in pod.labels ==> md.labels[k] == pod.labels[k]
    ensures md.annotations.Keys == pod.annotations.Keys
    ensures forall k :: k in pod.annotations ==> md.annotations[k] == pod.annotations[k]
  {
    DiscoveryMetadata(CopyLabels(pod.labels), CopyLabels(pod.annotations))
  }

  /** The metadata document carries exactly the Pod's labels and annotations
      once read back. */
  lemma MetadataDocumentRoundTrip(pod: PodObject)
    ensures MetadataFromJson(MetadataToJson(ExtractPodMetadata(pod)))
         == Wrappers.Some(DiscoveryMetadata(pod.labels, pod.annotations))
  {
    CopyLabelsIsIdentity(pod.labels);
    CopyLabelsIsIdentity(pod.annotations);
    MetadataRoundTrip(ExtractPodMetadata(pod));
  }
}
