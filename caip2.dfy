/** CAIP-2 chain ids (`namespace:reference`), as far as the contract inspects them. */
module Caip2 {
  import opened Text

  /** The namespace of a chain id: the text before the first `:`, or the whole id without one. */
  function Namespace(chainId: string): (ns: string)
    ensures ':' !in ns
    ensures |ns| <= |chainId| && ns == chainId[..|ns|]
    ensures |ns| == |chainId| || chainId[|ns|] == ':'
  {
    TakeUntil(chainId, ':')
  }

  /** Building a chain id from a namespace and a reference and reading its namespace back
      gives the namespace, whatever the reference holds (it may contain `:` itself). */
  lemma NamespaceOfChainId(ns: string, reference: string)
    requires ':' !in ns
    ensures Namespace(ns + ":" + reference) == ns
  {
    TakeUntilSeparated(ns, ':', reference);
  }

  /** The namespace is exactly the colon-free prefix that is followed by `:` or by the end of
      the id (the unique such prefix). */
  lemma NamespaceIs(chainId: string, p: string)
    ensures Namespace(chainId) == p <==>
      (':' !in p && |p| <= |chainId| && chainId[..|p|] == p && (|p| == |chainId| || chainId[|p|] == ':'))
  {
  }
}
