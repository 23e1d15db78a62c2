/**
 * KNode.add_synonym exactly as the source spells it. The loop body reads the
 * absorbed node through `syonymous_node`, a name that is not bound anywhere,
 * so the first property of the absorbed node raises NameError after its
 * identifier has already been appended to the synonyms and before any
 * property is merged. GraphComponents.KNode.AddSynonym is the intended merge.
 */
module AsWritten {
  import opened Wrappers
  import opened GraphComponents

  /** The state of the surviving node after the call, and the exception it raised, if any. */
  datatype MergeOutcome = MergeOutcome(synonyms: seq<string>, properties: Properties, raised: Option<PyError>)

  /** add_synonym as written, on the survivor's synonyms and properties and the absorbed node's identifier and properties. */
  function AddSynonymAsWritten(synonyms: seq<string>, properties: Properties, otherId: string, otherProps: Properties)
    : (r: MergeOutcome)
    ensures r.synonyms == synonyms + [otherId]
    ensures r.properties == properties
    ensures r.raised.Some? <==> otherProps != map[]
    ensures r.raised.Some? ==> r.raised.value == NameError("syonymous_node")
  {
    // The append on the first line of the method always runs.
    var appended := synonyms + [otherId];
    if otherProps == map[] then MergeOutcome(appended, properties, None)
    // Each branch of the loop body evaluates `syonymous_node` before it assigns anything.
    else MergeOutcome(appended, properties, Some(NameError("syonymous_node")))
  }

  /** A conflict list is never the value it was built from. */
  lemma ConflictIsNew(v: Value, w: Value)
    ensures List([v, w]) != v
  {
    assert v in List([v, w]).items;
  }

  /**
   * Whenever the absorbed node has a property, the code as written raises and
   * leaves the survivor's properties short of the intended merge, with the
   * synonym already recorded.
   */
  lemma AsWrittenMissesMerge(synonyms: seq<string>, properties: Properties, otherId: string, otherProps: Properties)
    requires otherProps != map[]
    ensures AddSynonymAsWritten(synonyms, properties, otherId, otherProps).raised == Some(NameError("syonymous_node"))
    ensures AddSynonymAsWritten(synonyms, properties, otherId, otherProps).synonyms == synonyms + [otherId]
    ensures AddSynonymAsWritten(synonyms, properties, otherId, otherProps).properties
         != MergedProperties(properties, otherProps)
  {
    var k :| k in otherProps;
    if k in properties {
      ConflictIsNew(properties[k], otherProps[k]);
      assert MergedProperties(properties, otherProps)[k] != properties[k];
    } else {
      assert k in MergedProperties(properties, otherProps);
    }
  }

  /** Without properties on the absorbed node, the code as written does what was intended. */
  lemma AsWrittenAgreesWithoutProperties(synonyms: seq<string>, properties: Properties, otherId: string)
    ensures AddSynonymAsWritten(synonyms, properties, otherId, map[]).raised == None
    ensures AddSynonymAsWritten(synonyms, properties, otherId, map[]).properties == MergedProperties(properties, map[])
  {
  }

  /**
   * Node A ("gene:123", type "gene", label "BRCA1") absorbs node B ("gene:456",
   * type "gene") that carries the property source = "x": the intended merge
   * records the synonym and copies the property.
   */
  method SynonymScenario(vocabulary: set<string>) returns (synonyms: seq<string>, properties: Properties)
    requires "gene" in vocabulary
    ensures synonyms == ["gene:456"]
    ensures properties == map["source" := Str("x")]
  {
    var a := new KNode("gene:123", "gene", vocabulary, Some("BRCA1"));
    var b := new KNode("gene:456", "gene", vocabulary);
    b.properties := map["source" := Str("x")];
    a.AddSynonym(b);
    assert MergedProperties(map[], map["source" := Str("x")]) == map["source" := Str("x")];
    synonyms, properties := a.synonyms, a.properties;
  }

  /** On the same two nodes the code as written raises NameError with the synonym recorded and no property merged. */
  lemma ScenarioAsWrittenRaises()
    ensures AddSynonymAsWritten([], map[], "gene:456", map["source" := Str("x")])
         == MergeOutcome(["gene:456"], map[], Some(NameError("syonymous_node")))
  {
    assert "source" in map["source" := Str("x")];
  }
}
