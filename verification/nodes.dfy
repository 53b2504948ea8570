/**
 The node record a lookup produces, and the merge that adds the server facts
 to its parameters before compilation.
 */
module Nodes {
  import opened Options
  import opened Facts

  /** A node: its name, its environment (possibly unset), and its parameters. */
  datatype Node = Node(name: string, environment: Option<string>, parameters: map<string, Value>)

  /** `after` is `before` with `facts` merged in: name and environment kept,
      every fact present with the fact's value (overriding any parameter of the
      same name), every other parameter kept as it was, and nothing added
      besides. */
  ghost predicate EnrichedWith(before: Node, facts: FactMap, after: Node)
  {
    && after.name == before.name
    && after.environment == before.environment
    && after.parameters.Keys == before.parameters.Keys + facts.Keys
    && (forall k :: k in facts ==> after.parameters[k] == facts[k])
    && (forall k :: k in before.parameters && k !in facts ==> after.parameters[k] == before.parameters[k])
  }

  /** `Node#merge` as this layer relies on it: map union, facts override. */
  function Merge(n: Node, facts: FactMap): (r: Node)
    ensures EnrichedWith(n, facts, r)
  {
    n.(parameters := n.parameters + facts)
  }

  /** The description of enrichment leaves no freedom: any node that meets it
      is the merged node. */
  lemma EnrichedWithDetermined(before: Node, facts: FactMap, a: Node, b: Node)
    requires EnrichedWith(before, facts, a)
    requires EnrichedWith(before, facts, b)
    ensures a == b
  {
  }

  /** Merging the same facts twice gives the same node as merging them once:
      facts do not accumulate. */
  lemma MergeIdempotent(n: Node, facts: FactMap)
    ensures Merge(Merge(n, facts), facts) == Merge(n, facts)
  {
  }
}
