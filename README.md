# Knowledge-graph entity model

A Dafny model of the entity layer of a knowledge-graph reasoner
(`reasoner/graph_components.py`):

- `KNode`: a vertex with an identifier, a type drawn from a closed vocabulary,
  an optional label, a property bag, an append-only list of synonym
  identifiers and an optional layer number. `add_synonym` folds another node
  into this one. Equality and hash depend on the identifier alone. There are
  two record views: `to_json` keeps full values, and `get_exportable` puts a
  placeholder text in place of every property value.
- `KEdge`: a directed relationship with a producing source (`edge_source`), a
  producing function (`edge_function`), a property bag and a synonym flag. Its
  endpoints start unset and are attached later. Equality and hash use the
  4-tuple (source node, target node, source, function). It has the same two
  record views.
- `elements_to_json`: the serialiser that sends a node or an edge to its
  `to_json` and anything else to its string form.

Files:

- `wrappers.dfy`: `Option` and `Result`.
- `graph_components.dfy`: module `GraphComponents`. It holds the value
  datatype, the merge specification, the two classes, the dispatcher and
  lemmas about repeated merges.
- `as_written.dfy`: module `AsWritten`. It models `add_synonym` exactly as
  the source spells it, which has a defect (see Findings).

Modelling choices:

- Property values are the datatype `Value`: `Str`, `Int`, `Bool`, `Null`
  (Python's `None`) and `List`. A merge conflict is the two-element list
  `List([old, new])`, so repeated conflicts on one key nest.
- Property bags and records are `map<string, Value>`. Python's dict
  insertion order is not modelled.
- `KNode` and `KEdge` are classes whose fields the methods update in place.
  `KNode.AddSynonym` appends to `synonyms` and runs the merge loop
  (`KNode.Absorb`, a `while` loop over the keys of the absorbed bag). It is
  proved against the function `MergedProperties`.
- The node-type vocabulary is a `set<string>` parameter. The constructor
  requires membership. `NewKNode` is the whole of `__init__`, including the
  raised `ValueError`, returned as a `Result`.
- `layer_number` is never assigned by the source, so in the source
  `to_json` and `get_exportable` raise AttributeError on a node nobody
  annotated. The model follows the evident intent instead: an `Option<int>`
  that starts as `None` and that a collaborator may assign. `to_json`
  includes it only when it is set (reasoner/graph_components.py:40), while
  `get_exportable` always includes it (reasoner/graph_components.py:54), as
  `Null` when unset.
- Python hash values are not modelled. A hash is expressed through function
  parameters (a string hash, the hash of `None`, a tuple-hash combiner), and
  only its consistency with equality is proved.
- Edge `==` follows CPython's tuple comparison. Slots are compared in order
  and the first unequal slot answers `False`.
  - Two unset endpoints are equal.
  - A node compared with `None` raises AttributeError, because `KNode.__eq__`
    reads `identifier` of its other operand.
- The `singledispatch` registration becomes a match over the closed datatype
  `Element`. The `str(x)` text of any other value is carried as an opaque
  string.

## Model

| member | source | states |
|---|---|---|
| GraphComponents.MergedProperties | reasoner/graph_components.py:19-24 | the merged key set is the union of both key sets; a key in both becomes `[mine, theirs]`; a key only in the absorbed bag is copied; a key only in the survivor keeps its value |
| GraphComponents.MergeStep | reasoner/graph_components.py:20-24 | one loop step (pair on conflict, copy otherwise) extends the merge of the keys done so far by one key |
| GraphComponents.KNode.constructor | reasoner/graph_components.py:8-15 | for a type in the vocabulary: identifier, type and label are stored, properties and synonyms are empty, layer number unset, type in the vocabulary |
| GraphComponents.NewKNode | reasoner/graph_components.py:8-15 | fails exactly when the type is outside the vocabulary, with ValueError `node_type T unsupported.`; otherwise a fresh node as the constructor states |
| GraphComponents.KNode.AddSynonym | reasoner/graph_components.py:16-24 | synonyms become old synonyms plus the absorbed identifier; properties become the intended merge of both bags; identifier, type, label and layer number unchanged; a distinct absorbed node is not modified |
| GraphComponents.KNode.Absorb | reasoner/graph_components.py:19-24 | the loop over the absorbed keys leaves exactly the intended merge of the old properties with the absorbed bag |
| GraphComponents.NodeEqualityIsIdentity | reasoner/graph_components.py:34-35 | about `KNode.Equals`: node `==` holds iff identifiers are equal, and is reflexive, symmetric and transitive, whatever the other fields |
| GraphComponents.NodeHashConsistent | reasoner/graph_components.py:31-33 | about `KNode.Hash` and `KNode.Equals`: equal nodes have equal hashes for every string hash |
| GraphComponents.KNode.Shortname | reasoner/graph_components.py:45-49 | `label (identifier)` when a label is set, the identifier otherwise; the identifier always appears at the end (before the closing parenthesis when labelled) |
| GraphComponents.KNode.ToJson | reasoner/graph_components.py:36-44 | keys are identifier, node_type, layer_number only when set, and every property key; every property keeps its exact value and overrides a fixed field of the same name; unshadowed fixed fields hold the node's identifier, type and layer number |
| GraphComponents.KNode.Exportable | reasoner/graph_components.py:50-59 | the name is the short name; attributes always hold identifier, node_type and layer_number (Null when unset), label only when set, and every property key mapped to `See JSON for details` |
| GraphComponents.NodeJsonRoundTrip | reasoner/graph_components.py:36-44 | reading identifier and node_type back out of the record gives the node's own, when no property shadows them |
| GraphComponents.NodeExportMasksJson | reasoner/graph_components.py:36-59 | both views carry every property key; the record keeps each value, and the export never shows a value other than the placeholder; on every other key of the record, the export agrees with it |
| GraphComponents.KEdge.constructor | reasoner/graph_components.py:66-75 | both endpoints unset; source, function and synonym flag stored; properties are the given map, or empty when none is given |
| GraphComponents.KEdge.Equals | reasoner/graph_components.py:76-79 | built from `SlotEquals` on each endpoint slot, and stated against `KEdge.Key`: raises AttributeError exactly when the first endpoint slot is set on one side only, or the first slots match and the second slot is set on one side only; otherwise the answer is whether the 4-tuple keys (by endpoint identifier) agree, independent of properties and synonym flag |
| GraphComponents.EdgeHashConsistent | reasoner/graph_components.py:76-81 | about `KEdge.Hash`, `KEdge.Key` and `KEdge.Equals`: edges that compare equal have the same key and equal hashes for every choice of element and tuple hash |
| GraphComponents.EdgeEqualityTotalWhenAttached | reasoner/graph_components.py:76-79 | when each endpoint slot is set on both edges or on neither, `==` never raises and answers key equality |
| GraphComponents.KEdge.ToJson | reasoner/graph_components.py:91-98 | keys are edge_source, edge_function, is_synonym and the property keys, so no endpoint field unless a property adds one; each property keeps its value; unshadowed fixed fields hold the edge's own |
| GraphComponents.KEdge.Exportable | reasoner/graph_components.py:99-106 | the same keys as the record, every property value replaced by the placeholder, unshadowed fixed fields hold the edge's own |
| GraphComponents.EdgeJsonRoundTrip | reasoner/graph_components.py:91-98 | reading edge_source, edge_function and is_synonym back out of the record gives the edge's own, when no property shadows them |
| GraphComponents.EdgeExportMasksJson | reasoner/graph_components.py:91-106 | the export view equals the record with every property value masked and every other entry kept |
| GraphComponents.ElementsToJson | reasoner/graph_components.py:117-131 | a node yields its record, an edge its record, anything else its string; a record comes out exactly when the input is a node or an edge |
| GraphComponents.DispatchRoundTrip | reasoner/graph_components.py:117-131 | a dispatched node or edge record reads back as that entity's fixed fields |
| GraphComponents.MergeAllKeys | reasoner/graph_components.py:16-24 | after absorbing several nodes in turn, the key set is the union of all their key sets |
| GraphComponents.MergeAllKeepsUnshared | reasoner/graph_components.py:16-24 | a key no absorbed node carries keeps the survivor's value through any number of merges |
| GraphComponents.MergeAllNests | reasoner/graph_components.py:16-24 | a key the survivor and every absorbed node carry ends up nested one pair deeper per merge (`[[v, w0], w1]` and so on) |
| AsWritten.AddSynonymAsWritten | reasoner/graph_components.py:16-24 | the code as written: the synonym is always appended; the properties never change; NameError on `syonymous_node` is raised exactly when the absorbed node has a property |
| AsWritten.ConflictIsNew | reasoner/graph_components.py:22 | a conflict pair never equals the value it was built from |
| AsWritten.AsWrittenMissesMerge | reasoner/graph_components.py:16-24 | whenever the absorbed node has a property, the code as written raises, keeps the appended synonym, and leaves properties different from the intended merge |
| AsWritten.AsWrittenAgreesWithoutProperties | reasoner/graph_components.py:16-24 | when the absorbed node has no property, the code as written raises nothing and agrees with the intended merge |
| AsWritten.SynonymScenario | reasoner/graph_components.py:8-24 | node gene:123 absorbing gene:456, which has source = "x", ends with synonyms `["gene:456"]` and properties `{source: "x"}` under the intended merge |
| AsWritten.ScenarioAsWrittenRaises | reasoner/graph_components.py:16-24 | on the same nodes, the code as written raises NameError, with the synonym recorded and no property merged |

## Left out

- `__repr__`, `__str__` and `long_form` (lines 25-29 and 82-90): diagnostic string formatting with no contract.
- The contents of `reasoner.node_types`, which is an external import. The vocabulary is a parameter.
- Python's concrete hash values. Hashes are parameters; only consistency with equality is proved.
- The `singledispatch` registration machinery. It is modelled as a match over a closed datatype. The second handler reuses the name `node_to_json`, which is harmless because both handlers are registered before the name is rebound.
- `KNode.__eq__` with an operand that is not a node: it compares identifiers when the operand has an `identifier` attribute and raises AttributeError when it has none. `KEdge.__eq__` with an operand that is not an edge raises AttributeError on `_KEdge__key` (reasoner/graph_components.py:79). The model types both operands as nodes, or both as edges, apart from the `None` endpoints of edges.
- Aliasing of the property dict passed to the `KEdge` constructor. Python keeps the caller's dict object; the model copies a map value.
- Python values outside the `Value` datatype: floats, dicts and other objects as property values, and identifiers, sources or functions that are not strings.
- The AttributeError that the record views raise in the source while `layer_number` is unassigned. See the modelling choices above.
- networkx, graphml and the JSON encoder itself, which are external libraries. So is the encoder's rendering of `Value`s as JSON text.
- Concurrency. The file has none.

## Findings

| source | as written | input that shows it | evidently intended | confidence | as-written member | corrected member |
|---|---|---|---|---|---|---|
| reasoner/graph_components.py:22-24 | the loop reads each value through `syonymous_node`, a misspelling of the parameter `synonymous_node`, so any absorbed node with a property raises NameError after its identifier was appended to `synonyms` and before any property is merged | node `gene:123` absorbing node `gene:456` with properties `{"source": "x"}` | read the absorbed node's values through `synonymous_node`, giving synonyms `["gene:456"]` and properties `{"source": "x"}` | high; not executed | AsWritten.AddSynonymAsWritten (shown by AsWritten.AsWrittenMissesMerge and AsWritten.ScenarioAsWrittenRaises) | GraphComponents.KNode.AddSynonym (with AsWritten.SynonymScenario) |
