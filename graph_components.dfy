/**
 * The entity model of a knowledge graph: typed vertices (KNode), directed
 * sourced relationships (KEdge), the synonym merge that folds one node into
 * another, and the two record views of each entity (a full JSON record and a
 * lossy export record for graph-visualization tools).
 */
module GraphComponents {
  import opened Wrappers

  /** A property or record value: the Python values the model needs. */
  datatype Value =
    | Str(s: string)
    | Int(i: int)
    | Bool(b: bool)
    | Null                     // Python's None
    | List(items: seq<Value>)  // a Python list; a merge conflict is a list of two

  /** A property bag; also the shape of a serialised record. Dict insertion order is not modelled. */
  type Properties = map<string, Value>

  /** The exceptions raised by the core. */
  datatype PyError =
    | ValueError(message: string)
    | AttributeError(attribute: string)
    | NameError(name: string)

  /** The text that stands in for every property value in the export views. */
  const Placeholder: string := "See JSON for details"

  /** The message of the ValueError raised for a node type outside the vocabulary. */
  function UnsupportedMessage(nodeType: string): string
  {
    "node_type " + nodeType + " unsupported."
  }

  // ---------------------------------------------------------------------------
  // Synonym merge of property bags
  // ---------------------------------------------------------------------------

  /**
   * The property bag of the surviving node after absorbing `theirs`: a key only
   * the survivor has keeps its value, a key only the absorbed node has is
   * copied, and a key both have becomes the two-element list [mine, theirs].
   */
  function MergedProperties(mine: Properties, theirs: Properties): (r: Properties)
    ensures r.Keys == mine.Keys + theirs.Keys
    ensures forall k :: k in mine && k in theirs ==> r[k] == List([mine[k], theirs[k]])
    ensures forall k :: k !in mine && k in theirs ==> r[k] == theirs[k]
    ensures forall k :: k in mine && k !in theirs ==> r[k] == mine[k]
  {
    map k | k in mine.Keys + theirs.Keys ::
      if k in theirs then
        if k in mine then List([mine[k], theirs[k]]) else theirs[k]
      else mine[k]
  }

  /** One step of the merge loop: absorbing key `k` extends the merged prefix by `k`. */
  lemma MergeStep(mine: Properties, done: Properties, k: string, v: Value)
    requires k !in done
    ensures (var merged := MergedProperties(mine, done);
             merged[k := if k in merged then List([merged[k], v]) else v] == MergedProperties(mine, done[k := v]))
  {
  }

  // ---------------------------------------------------------------------------
  // KNode
  // ---------------------------------------------------------------------------

  class KNode {
    var identifier: string
    var nodeType: string
    var nodeLabel: Option<string>
    var properties: Properties
    var synonyms: seq<string>
    // The source reads `layer_number` in both record views but never assigns it
    // (so reading it there raises AttributeError). Here it is an optional
    // annotation that starts unset and that a collaborator may assign.
    var layerNumber: Option<int>

    /** Builds a node whose type has already passed the vocabulary check (see NewKNode). */
    constructor (identifier: string, nodeType: string, vocabulary: set<string>, nodeLabel: Option<string> := None)
      requires nodeType in vocabulary
      ensures this.identifier == identifier && this.nodeType == nodeType && this.nodeLabel == nodeLabel
      ensures properties == map[] && synonyms == [] && layerNumber == None
      ensures TypeIn(vocabulary)
    {
      this.identifier := identifier;
      this.nodeLabel := nodeLabel;
      this.nodeType := nodeType;
      properties := map[];
      synonyms := [];
      layerNumber := None;
    }

    /** The node's type belongs to the vocabulary. */
    predicate TypeIn(vocabulary: set<string>)
      reads this
    {
      nodeType in vocabulary
    }

    /**
     * Folds `other` into this node: its identifier is appended to the synonyms
     * and its properties are merged as MergedProperties says. The source reads
     * the absorbed node's properties through a misspelt name
     * (`syonymous_node`), which raises NameError as soon as the absorbed node
     * has a property; this method models the evident intended merge (the code
     * as written is AsWritten.AddSynonymAsWritten).
     */
    method AddSynonym(other: KNode)
      modifies this
      ensures synonyms == old(synonyms) + [old(other.identifier)]
      ensures properties == MergedProperties(old(properties), old(other.properties))
      ensures identifier == old(identifier) && nodeType == old(nodeType)
      ensures nodeLabel == old(nodeLabel) && layerNumber == old(layerNumber)
      ensures other != this ==>
        other.identifier == old(other.identifier) && other.properties == old(other.properties) &&
        other.synonyms == old(other.synonyms)
    {
      synonyms := synonyms + [other.identifier];
      // Each key is read before it is written and written once, so a snapshot
      // reads the same values as the source's live lookups, even when `other`
      // is this node.
      Absorb(other.properties);
    }

    /** The merge loop of AddSynonym: folds each key of `incoming` into the properties. */
    method Absorb(incoming: Properties)
      modifies this`properties
      ensures properties == MergedProperties(old(properties), incoming)
    {
      ghost var start := properties;
      ghost var done: Properties := map[];
      var pending := incoming.Keys;
      while pending != {}
        invariant pending <= incoming.Keys && done.Keys == incoming.Keys - pending
        invariant forall k :: k in done ==> done[k] == incoming[k]
        invariant properties == MergedProperties(start, done)
        decreases pending
      {
        var k :| k in pending;
        MergeStep(start, done, k, incoming[k]);
        properties := properties[k := if k in properties then List([properties[k], incoming[k]]) else incoming[k]];
        done := done[k := incoming[k]];
        pending := pending - {k};
      }
      assert done == incoming;
    }

    /** Python `==` between two nodes. */
    predicate Equals(other: KNode)
      reads this, other
    {
      identifier == other.identifier
    }

    /** Python `hash`: the hash of the identifier under the string hash `strHash`. */
    function Hash(strHash: string -> int): int
      reads this
    {
      strHash(identifier)
    }

    /** The display name: `label (identifier)` when labelled, else the identifier. */
    function Shortname(): (s: string)
      reads this
      ensures nodeLabel.None? ==> s == identifier
      ensures nodeLabel.Some? ==> s == nodeLabel.value + " (" + identifier + ")"
      ensures |identifier| <= |s| && s[|s| - |identifier| - (if nodeLabel.Some? then 1 else 0)..|s| - (if nodeLabel.Some? then 1 else 0)] == identifier
    {
      if nodeLabel.Some? then nodeLabel.value + " (" + identifier + ")" else identifier
    }

    /**
     * The full record: identifier, node_type and (only when set) layer_number,
     * then every property with its value; properties are written last, so a
     * property named like a fixed field replaces it.
     */
    function ToJson(): (j: Properties)
      reads this
      ensures j.Keys == {"identifier", "node_type"} + (if layerNumber.Some? then {"layer_number"} else {}) + properties.Keys
      ensures forall k :: k in properties ==> j[k] == properties[k]
      ensures "identifier" !in properties ==> j["identifier"] == Str(identifier)
      ensures "node_type" !in properties ==> j["node_type"] == Str(nodeType)
      ensures layerNumber.Some? && "layer_number" !in properties ==> j["layer_number"] == Int(layerNumber.value)
    {
      var fixed := map["identifier" := Str(identifier), "node_type" := Str(nodeType)];
      var withLayer := if layerNumber.Some? then fixed["layer_number" := Int(layerNumber.value)] else fixed;
      withLayer + properties
    }

    /**
     * The export view: the short name, and attributes holding identifier,
     * node_type, layer_number (always; Null when unset), label (only when set)
     * and every property key mapped to the placeholder text.
     */
    function Exportable(): (e: (string, Properties))
      reads this
      ensures e.0 == Shortname()
      ensures e.1.Keys == {"identifier", "node_type", "layer_number"} + (if nodeLabel.Some? then {"label"} else {}) + properties.Keys
      ensures forall k :: k in properties ==> e.1[k] == Str(Placeholder)
      ensures "identifier" !in properties ==> e.1["identifier"] == Str(identifier)
      ensures "node_type" !in properties ==> e.1["node_type"] == Str(nodeType)
      ensures "layer_number" !in properties ==>
        e.1["layer_number"] == (if layerNumber.Some? then Int(layerNumber.value) else Null)
      ensures nodeLabel.Some? && "label" !in properties ==> e.1["label"] == Str(nodeLabel.value)
    {
      var fixed := map["identifier" := Str(identifier), "node_type" := Str(nodeType),
                       "layer_number" := if layerNumber.Some? then Int(layerNumber.value) else Null];
      var withLabel := if nodeLabel.Some? then fixed["label" := Str(nodeLabel.value)] else fixed;
      (Shortname(), withLabel + map k | k in properties :: Str(Placeholder))
    }
  }

  /**
   * KNode(identifier, node_type, label): raises ValueError when the type is
   * outside the vocabulary, and otherwise yields a node with no properties and
   * no synonyms.
   */
  method NewKNode(identifier: string, nodeType: string, vocabulary: set<string>, nodeLabel: Option<string> := None)
    returns (r: Result<KNode, PyError>)
    ensures r.Failure? <==> nodeType !in vocabulary
    ensures r.Failure? ==> r.error == ValueError(UnsupportedMessage(nodeType))
    ensures r.Success? ==> fresh(r.value) && r.value.TypeIn(vocabulary)
    ensures r.Success? ==> r.value.identifier == identifier && r.value.nodeType == nodeType && r.value.nodeLabel == nodeLabel
    ensures r.Success? ==> r.value.properties == map[] && r.value.synonyms == [] && r.value.layerNumber == None
  {
    if nodeType !in vocabulary {
      return Failure(ValueError(UnsupportedMessage(nodeType)));
    }
    var n := new KNode(identifier, nodeType, vocabulary, nodeLabel);
    return Success(n);
  }

  /** Node `==` is identity of identifiers: an equivalence that ignores every other field. */
  lemma NodeEqualityIsIdentity(a: KNode, b: KNode, c: KNode)
    ensures a.Equals(b) <==> a.identifier == b.identifier
    ensures a.Equals(a)
    ensures a.Equals(b) ==> b.Equals(a)
    ensures a.Equals(b) && b.Equals(c) ==> a.Equals(c)
  {
  }

  /** Equal nodes have equal hashes, whatever the string hash. */
  lemma NodeHashConsistent(a: KNode, b: KNode, strHash: string -> int)
    requires a.Equals(b)
    ensures a.Hash(strHash) == b.Hash(strHash)
  {
  }

  /** Reads identifier and node_type back out of a node record. */
  function ReadNodeFields(j: Properties): Option<(string, string)>
  {
    if "identifier" in j && j["identifier"].Str? && "node_type" in j && j["node_type"].Str?
    then Some((j["identifier"].s, j["node_type"].s))
    else None
  }

  /** The node record gives back the identifier and the type, unless a property shadows them. */
  lemma NodeJsonRoundTrip(n: KNode)
    requires "identifier" !in n.properties && "node_type" !in n.properties
    ensures ReadNodeFields(n.ToJson()) == Some((n.identifier, n.nodeType))
  {
  }

  /**
   * The two node views carry the same property keys; the record keeps every
   * value and the export view replaces every value by the placeholder, so no
   * value other than the placeholder text itself survives into the export.
   */
  lemma NodeExportMasksJson(n: KNode)
    ensures forall k :: k in n.properties ==> k in n.ToJson() && k in n.Exportable().1
    ensures forall k :: k in n.properties ==> n.ToJson()[k] == n.properties[k]
    ensures forall k :: k in n.properties && n.properties[k] != Str(Placeholder) ==>
      n.Exportable().1[k] != n.properties[k]
    ensures forall k :: k in n.ToJson() && k !in n.properties ==>
      k in n.Exportable().1 && n.Exportable().1[k] == n.ToJson()[k]
  {
  }

  // ---------------------------------------------------------------------------
  // KEdge
  // ---------------------------------------------------------------------------

  /** The identity of an edge: endpoint identifiers (None when unset), source and function. */
  datatype EdgeKey = EdgeKey(source: Option<string>, target: Option<string>, edgeSource: string, edgeFunction: string)

  /** The identifier of an endpoint slot, None when it is unset. */
  function SlotId(n: KNode?): Option<string>
    reads n
  {
    if n == null then None else Some(n.identifier)
  }

  /**
   * Python `==` on one endpoint slot. None equals None; a node compared with
   * None raises AttributeError, because KNode.__eq__ reads `identifier` of
   * its other operand whichever side the node is on.
   */
  function SlotEquals(a: KNode?, b: KNode?): Result<bool, PyError>
    reads a, b
  {
    if a == null && b == null then Success(true)
    else if a == null || b == null then Failure(AttributeError("identifier"))
    else Success(a.Equals(b))
  }

  /** The hash of one endpoint slot: `noneHash` for None, the node's hash otherwise. */
  function SlotHash(n: KNode?, strHash: string -> int, noneHash: int): int
    reads n
  {
    if n == null then noneHash else n.Hash(strHash)
  }

  class KEdge {
    var edgeSource: string
    var edgeFunction: string
    var sourceNode: KNode?
    var targetNode: KNode?
    var properties: Properties
    var isSynonym: bool

    /** Builds an edge with both endpoints unset; absent properties become the empty map. */
    constructor (edgeSource: string, edgeFunction: string, properties: Option<Properties> := None, isSynonym: bool := false)
      ensures this.edgeSource == edgeSource && this.edgeFunction == edgeFunction && this.isSynonym == isSynonym
      ensures sourceNode == null && targetNode == null
      ensures this.properties == if properties.Some? then properties.value else map[]
    {
      this.edgeSource := edgeSource;
      sourceNode := null;
      targetNode := null;
      this.edgeFunction := edgeFunction;
      if properties.Some? {
        this.properties := properties.value;
      } else {
        this.properties := map[];
      }
      this.isSynonym := isSynonym;
    }

    /** The 4-tuple (source_node, target_node, edge_source, edge_function), by endpoint identifier. */
    function Key(): EdgeKey
      reads this, sourceNode, targetNode
    {
      EdgeKey(SlotId(sourceNode), SlotId(targetNode), edgeSource, edgeFunction)
    }

    /**
     * Python `==` between two edges: their 4-tuples compared slot by slot,
     * stopping at the first unequal slot. It raises exactly when the first
     * endpoint slots are set on one side only, or the first slots are equal
     * and the second slots are set on one side only; otherwise the answer is
     * whether the keys agree, whatever the properties and synonym flags.
     */
    function Equals(other: KEdge): (r: Result<bool, PyError>)
      reads this, other, sourceNode, targetNode, other.sourceNode, other.targetNode
      ensures r.Failure? <==>
        (sourceNode == null) != (other.sourceNode == null) ||
        (SlotId(sourceNode) == SlotId(other.sourceNode) && (targetNode == null) != (other.targetNode == null))
      ensures r.Failure? ==> r.error == AttributeError("identifier")
      ensures r.Success? ==> (r.value <==> Key() == other.Key())
    {
      match SlotEquals(sourceNode, other.sourceNode)
      case Failure(e) => Failure(e)
      case Success(false) => Success(false)
      case Success(true) =>
        match SlotEquals(targetNode, other.targetNode)
        case Failure(e) => Failure(e)
        case Success(false) => Success(false)
        case Success(true) => Success(edgeSource == other.edgeSource && edgeFunction == other.edgeFunction)
    }

    /** Python `hash` of the 4-tuple, with `tupleHash` combining the element hashes. */
    function Hash(strHash: string -> int, noneHash: int, tupleHash: seq<int> -> int): int
      reads this, sourceNode, targetNode
    {
      tupleHash([SlotHash(sourceNode, strHash, noneHash), SlotHash(targetNode, strHash, noneHash),
                 strHash(edgeSource), strHash(edgeFunction)])
    }

    /**
     * The full record: edge_source, edge_function, is_synonym and every
     * property with its value. Endpoints are not part of it.
     */
    function ToJson(): (j: Properties)
      reads this
      ensures j.Keys == {"edge_source", "edge_function", "is_synonym"} + properties.Keys
      ensures "source_node" !in properties ==> "source_node" !in j
      ensures "target_node" !in properties ==> "target_node" !in j
      ensures forall k :: k in properties ==> j[k] == properties[k]
      ensures "edge_source" !in properties ==> j["edge_source"] == Str(edgeSource)
      ensures "edge_function" !in properties ==> j["edge_function"] == Str(edgeFunction)
      ensures "is_synonym" !in properties ==> j["is_synonym"] == Bool(isSynonym)
    {
      map["edge_source" := Str(edgeSource), "edge_function" := Str(edgeFunction), "is_synonym" := Bool(isSynonym)]
        + properties
    }

    /** The export view: the same fixed fields, with every property value replaced by the placeholder. */
    function Exportable(): (e: Properties)
      reads this
      ensures e.Keys == {"edge_source", "edge_function", "is_synonym"} + properties.Keys
      ensures forall k :: k in properties ==> e[k] == Str(Placeholder)
      ensures "edge_source" !in properties ==> e["edge_source"] == Str(edgeSource)
      ensures "edge_function" !in properties ==> e["edge_function"] == Str(edgeFunction)
      ensures "is_synonym" !in properties ==> e["is_synonym"] == Bool(isSynonym)
    {
      map["edge_source" := Str(edgeSource), "edge_function" := Str(edgeFunction), "is_synonym" := Bool(isSynonym)]
        + map k | k in properties :: Str(Placeholder)
    }
  }

  /**
   * Edge equality and hash agree: edges that compare equal have equal hashes,
   * whatever the hash functions, and they have the same key.
   */
  lemma EdgeHashConsistent(x: KEdge, y: KEdge, strHash: string -> int, noneHash: int, tupleHash: seq<int> -> int)
    requires x.Equals(y) == Success(true)
    ensures x.Key() == y.Key()
    ensures x.Hash(strHash, noneHash, tupleHash) == y.Hash(strHash, noneHash, tupleHash)
  {
  }

  /** Once endpoints are attached on both edges (or on neither), `==` never raises. */
  lemma EdgeEqualityTotalWhenAttached(x: KEdge, y: KEdge)
    requires (x.sourceNode == null) == (y.sourceNode == null)
    requires (x.targetNode == null) == (y.targetNode == null)
    ensures x.Equals(y) == Success(x.Key() == y.Key())
  {
  }

  /** Reads edge_source, edge_function and is_synonym back out of an edge record. */
  function ReadEdgeFields(j: Properties): Option<(string, string, bool)>
  {
    if "edge_source" in j && j["edge_source"].Str? && "edge_function" in j && j["edge_function"].Str?
       && "is_synonym" in j && j["is_synonym"].Bool?
    then Some((j["edge_source"].s, j["edge_function"].s, j["is_synonym"].b))
    else None
  }

  /** The edge record gives back source, function and synonym flag, unless a property shadows them. */
  lemma EdgeJsonRoundTrip(e: KEdge)
    requires "edge_source" !in e.properties && "edge_function" !in e.properties && "is_synonym" !in e.properties
    ensures ReadEdgeFields(e.ToJson()) == Some((e.edgeSource, e.edgeFunction, e.isSynonym))
  {
  }

  /** The edge export view is exactly the edge record with every property value masked. */
  lemma EdgeExportMasksJson(e: KEdge)
    ensures e.Exportable() == map k | k in e.ToJson() :: if k in e.properties then Str(Placeholder) else e.ToJson()[k]
  {
  }

  // ---------------------------------------------------------------------------
  // Serialisation dispatch
  // ---------------------------------------------------------------------------

  /** A value handed to the JSON encoder: a node, an edge, or anything else (by its `str` text). */
  datatype Element = NodeElement(node: KNode) | EdgeElement(edge: KEdge) | Other(text: string)
  {
    /** The objects whose fields the serialised form depends on. */
    function Footprint(): set<object>
    {
      match this
      case NodeElement(n) => {n}
      case EdgeElement(e) => {e}
      case Other(_) => {}
    }
  }

  /** What the encoder receives: a record for nodes and edges, a string for anything else. */
  datatype Serialized = Record(fields: Properties) | Text(text: string)

  /** elements_to_json: nodes and edges go to their own record, anything else to its string. */
  function ElementsToJson(x: Element): (r: Serialized)
    reads x.Footprint()
    ensures r.Record? <==> !x.Other?
    ensures x.NodeElement? ==> r.fields == x.node.ToJson()
    ensures x.EdgeElement? ==> r.fields == x.edge.ToJson()
    ensures x.Other? ==> r.text == x.text
  {
    match x
    case NodeElement(n) => Record(n.ToJson())
    case EdgeElement(e) => Record(e.ToJson())
    case Other(s) => Text(s)
  }

  /** A record produced by the dispatcher reads back as the entity's fixed fields. */
  lemma DispatchRoundTrip(x: Element)
    requires x.NodeElement? ==> "identifier" !in x.node.properties && "node_type" !in x.node.properties
    requires x.EdgeElement? ==>
      "edge_source" !in x.edge.properties && "edge_function" !in x.edge.properties && "is_synonym" !in x.edge.properties
    ensures x.NodeElement? ==> ReadNodeFields(ElementsToJson(x).fields) == Some((x.node.identifier, x.node.nodeType))
    ensures x.EdgeElement? ==>
      ReadEdgeFields(ElementsToJson(x).fields) == Some((x.edge.edgeSource, x.edge.edgeFunction, x.edge.isSynonym))
  {
  }

  // ---------------------------------------------------------------------------
  // Repeated merges
  // ---------------------------------------------------------------------------

  /**
   * The property bag after absorbing each bag of `others` in turn: what the
   * properties of a node become after successive KNode.AddSynonym calls with
   * nodes carrying those bags (each call's ensures is one MergedProperties step).
   */
  function MergeAll(props: Properties, others: seq<Properties>): Properties
    decreases |others|
  {
    if others == [] then props else MergeAll(MergedProperties(props, others[0]), others[1..])
  }

  /** Every key of every bag in `others`. */
  function KeysOf(others: seq<Properties>): set<string>
    decreases |others|
  {
    if others == [] then {} else others[0].Keys + KeysOf(others[1..])
  }

  /** `v` wrapped once per element of `ws`: [[[v, w0], w1], ...]. */
  function Nest(v: Value, ws: seq<Value>): Value
    decreases |ws|
  {
    if ws == [] then v else Nest(List([v, ws[0]]), ws[1..])
  }

  /** The values under key `k` in each of `others`, in order. */
  function Column(others: seq<Properties>, k: string): seq<Value>
    requires forall i :: 0 <= i < |others| ==> k in others[i]
    decreases |others|
  {
    if others == [] then [] else [others[0][k]] + Column(others[1..], k)
  }

  /** After repeated merges the key set is the union of all key sets. */
  lemma {:induction false} MergeAllKeys(props: Properties, others: seq<Properties>)
    ensures MergeAll(props, others).Keys == props.Keys + KeysOf(others)
    decreases |others|
  {
    if others != [] {
      MergeAllKeys(MergedProperties(props, others[0]), others[1..]);
    }
  }

  /** A key that no absorbed bag carries keeps the survivor's value through repeated merges. */
  lemma {:induction false} MergeAllKeepsUnshared(props: Properties, others: seq<Properties>, k: string)
    requires k in props && k !in KeysOf(others)
    ensures k in MergeAll(props, others) && MergeAll(props, others)[k] == props[k]
    decreases |others|
  {
    if others != [] {
      MergeAllKeepsUnshared(MergedProperties(props, others[0]), others[1..], k);
    }
  }

  /**
   * A key that the survivor and every absorbed bag carry ends up as nested
   * pairs, one level per merge: conflicts accumulate rather than flatten.
   */
  lemma {:induction false} MergeAllNests(props: Properties, others: seq<Properties>, k: string)
    requires k in props
    requires forall i :: 0 <= i < |others| ==> k in others[i]
    ensures k in MergeAll(props, others)
    ensures MergeAll(props, others)[k] == Nest(props[k], Column(others, k))
    decreases |others|
  {
    if others != [] {
      var merged := MergedProperties(props, others[0]);
      assert merged[k] == List([props[k], others[0][k]]);
      MergeAllNests(merged, others[1..], k);
      assert Column(others, k)[1..] == Column(others[1..], k);
    }
  }
}
