/** The capability record a running agent carries (types.rs). */
module Capabilities {
  import opened Wrappers

  const CONVERSATION_RUNTIME_CONTEXT_VERSION := 2

  datatype RuntimeCapabilities = RuntimeCapabilities(contextVersion: Option<nat>) {
    predicate Satisfies(requested: RuntimeCapabilities) {
      match requested.contextVersion
      case Some(version) => contextVersion.Some? && contextVersion.value >= version
      case None => true
    }

    /** No version ranks lowest; version v ranks v + 1. */
    function Rank(): nat {
      match contextVersion
      case None => 0
      case Some(v) => v + 1
    }
  }

  /** `Satisfies` is the total preorder by rank. */
  lemma SatisfiesIsRankOrder(a: RuntimeCapabilities, b: RuntimeCapabilities)
    ensures a.Satisfies(b) <==> a.Rank() >= b.Rank()
  {
  }
}
