# Available nodes, client builder and participant manager

A Dafny model of three parts of the Ballerina developer tools.

- **AvailableNodesGenerator** (flow model). For a cursor position, it computes the palette of nodes the flow diagram offers for insertion:
  - a CONNECTIONS category with one sub-category per visible client variable, each holding its connector's actions;
  - STATEMENT, CONTROL and ERROR_HANDLING categories, chosen by the innermost enclosing loop or branching/scoped construct;
  - one STOP per nil-returning definition from the deciding loop or branching/scoped ancestor outward, and none when there is no such ancestor.

  The generator keeps the root category's children and updates them in place. It is the class `AvailableNodes.AvailableNodesGenerator`, whose field `root` is the list of children. The category tree and the `stepIn` it relies on are in `Categories`. Connection discovery and the sort by label are in `Connections`.
- **Client.Builder** (flow model). A mutable builder that collects a client's label, kind, source range, scope, value and flags, and resets itself on `build`. It is the class `ClientModel.Builder`.
- **ParticipantManager** (sequence model). A cache from a name's text to a participant id, plus the list of generated participants. It is the class `ParticipantTracking.ParticipantManager`. The same step is given as the pure function `Lookup` on a `Registry` value, so that properties relating several calls can be stated as lemmas.

The compiler services are inputs.
- For the generator, the syntax tree walk becomes the ancestor chain, innermost first. Each ancestor carries its kind and the result of resolving a definition's return type.
- The visible symbols become descriptors, and the connector database becomes a `Catalog` value.
- For the participant manager, symbol and syntax tree lookups are function-valued fields of `Frontend`, and the participant analyzer is a function.
- A Java `null` or an empty `Optional` is `None`. A `RuntimeException` caught by the source is also `None`.

## Model

| member | source | states |
|---|---|---|
| Categories.Put | flow-model-generator/modules/flow-model-generator-core/src/main/java/io/ballerina/flowmodelgenerator/core/AvailableNodesGenerator.java:140-151 | after stepIn the named child exists; a name not present is appended as the last child holding the items; for a name already present the child count is unchanged |
| Categories.PutExisting | flow-model-generator/modules/flow-model-generator-core/src/main/java/io/ballerina/flowmodelgenerator/core/AvailableNodesGenerator.java:146-151 | stepIn on a name already present appends the items to that child, and the children before and after it are unchanged |
| Categories.PutPut | flow-model-generator/modules/flow-model-generator-core/src/main/java/io/ballerina/flowmodelgenerator/core/AvailableNodesGenerator.java:176-178 | two stepIns into the same category equal one stepIn with both item lists concatenated |
| Categories.PutNothing | flow-model-generator/modules/flow-model-generator-core/src/main/java/io/ballerina/flowmodelgenerator/core/AvailableNodesGenerator.java:176-178 | stepping into an existing category without adding items leaves the tree unchanged |
| Categories.PutKeepsPositions | flow-model-generator/modules/flow-model-generator-core/src/main/java/io/ballerina/flowmodelgenerator/core/AvailableNodesGenerator.java:140-159 | stepIn never moves or renames a child: every existing child keeps its position and title |
| Categories.PutKeeps | flow-model-generator/modules/flow-model-generator-core/src/main/java/io/ballerina/flowmodelgenerator/core/AvailableNodesGenerator.java:140-159 | stepIn never removes a category |
| Connections.FetchConnections | flow-model-generator/modules/flow-model-generator-core/src/main/java/io/ballerina/flowmodelgenerator/core/AvailableNodesGenerator.java:227-258 | no connector gives no items; otherwise one ACTION_CALL item per connector action, in database order, whose label and symbol are the action's name, whose id is its function id, whose object is the client symbol, and whose org and module are the connector's |
| Connections.ConnectionOf | flow-model-generator/modules/flow-model-generator-core/src/main/java/io/ballerina/flowmodelgenerator/core/AvailableNodesGenerator.java:198-225 | a symbol yields a connection exactly when it is a variable whose type refers to a CLIENT-qualified class whose module and module name are known and the symbol has a name; the connection is labelled with the symbol's name and holds the module connector's actions |
| Connections.GetConnection | flow-model-generator/modules/flow-model-generator-core/src/main/java/io/ballerina/flowmodelgenerator/core/AvailableNodesGenerator.java:198-225 | the connection the generator builds, fetching actions, is exactly ConnectionOf |
| Connections.VisibleConnections | flow-model-generator/modules/flow-model-generator-core/src/main/java/io/ballerina/flowmodelgenerator/core/AvailableNodesGenerator.java:78-79 | flatMap over the symbols yields at most one connection per symbol |
| Connections.VisibleConnectionsCount | flow-model-generator/modules/flow-model-generator-core/src/main/java/io/ballerina/flowmodelgenerator/core/AvailableNodesGenerator.java:78-79 | each symbol that yields a connection contributes exactly one occurrence of it: a connection's multiplicity equals the number of symbols yielding it |
| Connections.VisibleConnectionsMembers | flow-model-generator/modules/flow-model-generator-core/src/main/java/io/ballerina/flowmodelgenerator/core/AvailableNodesGenerator.java:78-79 | a connection is enumerated iff some visible symbol yields it |
| Connections.CollectConnections | flow-model-generator/modules/flow-model-generator-core/src/main/java/io/ballerina/flowmodelgenerator/core/AvailableNodesGenerator.java:77-79 | the stream loop collects exactly VisibleConnections, in symbol order |
| Connections.LabelLeTotal | flow-model-generator/modules/flow-model-generator-core/src/main/java/io/ballerina/flowmodelgenerator/core/AvailableNodesGenerator.java:80 | the label comparison (String.compareTo) is total |
| Connections.LabelLeTrans | flow-model-generator/modules/flow-model-generator-core/src/main/java/io/ballerina/flowmodelgenerator/core/AvailableNodesGenerator.java:80 | the label comparison is transitive |
| Connections.Insert | flow-model-generator/modules/flow-model-generator-core/src/main/java/io/ballerina/flowmodelgenerator/core/AvailableNodesGenerator.java:80 | inserting into the sorted list is a permutation of the list plus the new connection |
| Connections.SortByLabel | flow-model-generator/modules/flow-model-generator-core/src/main/java/io/ballerina/flowmodelgenerator/core/AvailableNodesGenerator.java:80 | sorting is a permutation of the connections |
| Connections.InsertSorted | flow-model-generator/modules/flow-model-generator-core/src/main/java/io/ballerina/flowmodelgenerator/core/AvailableNodesGenerator.java:80 | insertion keeps the list sorted by label |
| Connections.SortByLabelSorted | flow-model-generator/modules/flow-model-generator-core/src/main/java/io/ballerina/flowmodelgenerator/core/AvailableNodesGenerator.java:80 | the sorted connections are ascending by label and a permutation of the input |
| AvailableNodes.FirstMatch | flow-model-generator/modules/flow-model-generator-core/src/main/java/io/ballerina/flowmodelgenerator/core/AvailableNodesGenerator.java:95-109 | the walk stops at the innermost loop or branching/scoped ancestor, with every ancestor below it of neither kind; no match means the whole chain is of neither kind |
| AvailableNodes.StopCount | flow-model-generator/modules/flow-model-generator-core/src/main/java/io/ballerina/flowmodelgenerator/core/AvailableNodesGenerator.java:172-182 | at most one STOP per ancestor |
| AvailableNodes.StopsMultiset | flow-model-generator/modules/flow-model-generator-core/src/main/java/io/ballerina/flowmodelgenerator/core/AvailableNodesGenerator.java:176-178 | Stops(n), the list the stop walk appends to CONTROL (StopWalkAppendsStops), holds exactly n STOP nodes |
| AvailableNodes.StopWalkAppendsStops | flow-model-generator/modules/flow-model-generator-core/src/main/java/io/ballerina/flowmodelgenerator/core/AvailableNodesGenerator.java:172-182 | once CONTROL exists, the stop walk appends exactly one STOP per qualifying ancestor to CONTROL and changes nothing else |
| AvailableNodes.StopCountAppend | flow-model-generator/modules/flow-model-generator-core/src/main/java/io/ballerina/flowmodelgenerator/core/AvailableNodesGenerator.java:172-182 | the STOP count of a chain is the sum over its parts |
| AvailableNodes.StopRule | flow-model-generator/modules/flow-model-generator-core/src/main/java/io/ballerina/flowmodelgenerator/core/AvailableNodesGenerator.java:184-196 | an ancestor qualifies iff it is a function, resource accessor or object method definition whose symbol resolves with an absent or nil return type; a STOP is offered iff some ancestor qualifies |
| AvailableNodes.DefaultNodesAfterConnections | flow-model-generator/modules/flow-model-generator-core/src/main/java/io/ballerina/flowmodelgenerator/core/AvailableNodesGenerator.java:128-170 | after CONNECTIONS, the default nodes are STATEMENT [VARIABLE, ASSIGN, FUNCTION, DATA_MAPPER], CONTROL [IF, MATCH, WHILE, FOREACH, RETURN], ERROR_HANDLING [FAIL, PANIC], in that order |
| AvailableNodes.PaletteControl | flow-model-generator/modules/flow-model-generator-core/src/main/java/io/ballerina/flowmodelgenerator/core/AvailableNodesGenerator.java:122-125 | stepping into CONTROL appends to CONTROL's items only |
| AvailableNodes.FlowPalette | flow-model-generator/modules/flow-model-generator-core/src/main/java/io/ballerina/flowmodelgenerator/core/AvailableNodesGenerator.java:90-112 | the four categories the walk produces in every case: CONTROL is the defaults, then the STOPs from the deciding ancestor outward, then BREAK and CONTINUE when that ancestor is a loop; with no such ancestor it is the defaults only |
| AvailableNodes.LoopAncestor | flow-model-generator/modules/flow-model-generator-core/src/main/java/io/ballerina/flowmodelgenerator/core/AvailableNodesGenerator.java:119-126 | inside a loop: the full palette, with CONTROL = defaults, STOPs, BREAK, CONTINUE |
| AvailableNodes.ScopedAncestor | flow-model-generator/modules/flow-model-generator-core/src/main/java/io/ballerina/flowmodelgenerator/core/AvailableNodesGenerator.java:114-117 | inside a branching/scoped construct: the full palette, with CONTROL = defaults and STOPs, no BREAK/CONTINUE |
| AvailableNodes.NoQualifyingAncestor | flow-model-generator/modules/flow-model-generator-core/src/main/java/io/ballerina/flowmodelgenerator/core/AvailableNodesGenerator.java:110-111 | with no loop or scoped ancestor: the default palette with no STOP |
| AvailableNodes.FirstMatchDecides | flow-model-generator/modules/flow-model-generator-core/src/main/java/io/ballerina/flowmodelgenerator/core/AvailableNodesGenerator.java:95-109 | ancestors outside the first match, whatever they are, never change the decision |
| AvailableNodes.FirstMatchWins | flow-model-generator/modules/flow-model-generator-core/src/main/java/io/ballerina/flowmodelgenerator/core/AvailableNodesGenerator.java:95-109 | replacing the ancestors outside the first match by any with the same STOP count leaves the decision and the palette unchanged |
| AvailableNodes.LoopControlOnlyInLoops | flow-model-generator/modules/flow-model-generator-core/src/main/java/io/ballerina/flowmodelgenerator/core/AvailableNodesGenerator.java:119-126 | BREAK and CONTINUE are in CONTROL iff the deciding ancestor is a while or foreach loop |
| AvailableNodes.StopsOffered | flow-model-generator/modules/flow-model-generator-core/src/main/java/io/ballerina/flowmodelgenerator/core/AvailableNodesGenerator.java:172-182 | the number of STOPs in CONTROL is the number of qualifying ancestors from the deciding one outward (zero with no deciding ancestor) |
| AvailableNodes.NoConcurrencyNodes | flow-model-generator/modules/flow-model-generator-core/src/main/java/io/ballerina/flowmodelgenerator/core/AvailableNodesGenerator.java:160-169 | the flow categories hold only plain nodes, none of the concurrency kinds |
| AvailableNodes.ConnectionCategories | flow-model-generator/modules/flow-model-generator-core/src/main/java/io/ballerina/flowmodelgenerator/core/AvailableNodesGenerator.java:77-82 | CONNECTIONS holds the connections of the visible client variables, sorted by label, as a permutation of those found, with membership iff some symbol yields it |
| AvailableNodes.AvailableNodesLayout | flow-model-generator/modules/flow-model-generator-core/src/main/java/io/ballerina/flowmodelgenerator/core/AvailableNodesGenerator.java:76-88 | the response is CONNECTIONS, STATEMENT, CONTROL, ERROR_HANDLING, followed by the indexed functions |
| AvailableNodes.AvailableNodesGenerator.constructor | flow-model-generator/modules/flow-model-generator-core/src/main/java/io/ballerina/flowmodelgenerator/core/AvailableNodesGenerator.java:69-74 | a new generator's root has no children |
| AvailableNodes.AvailableNodesGenerator.SetDefaultNodes | flow-model-generator/modules/flow-model-generator-core/src/main/java/io/ballerina/flowmodelgenerator/core/AvailableNodesGenerator.java:128-170 | the root becomes WithDefaultNodes of the old root |
| AvailableNodes.AvailableNodesGenerator.SetStopNode | flow-model-generator/modules/flow-model-generator-core/src/main/java/io/ballerina/flowmodelgenerator/core/AvailableNodesGenerator.java:172-182 | the loop over the ancestors leaves the root as WithStopNodes of the old root |
| AvailableNodes.AvailableNodesGenerator.SetAvailableDefaultNodes | flow-model-generator/modules/flow-model-generator-core/src/main/java/io/ballerina/flowmodelgenerator/core/AvailableNodesGenerator.java:114-117 | the defaults, then the stop walk from the matched node |
| AvailableNodes.AvailableNodesGenerator.SetAvailableNodesForIteratingBlock | flow-model-generator/modules/flow-model-generator-core/src/main/java/io/ballerina/flowmodelgenerator/core/AvailableNodesGenerator.java:119-126 | the defaults, the stop walk, then BREAK and CONTINUE appended to CONTROL |
| AvailableNodes.AvailableNodesGenerator.GetAvailableFlowNodes | flow-model-generator/modules/flow-model-generator-core/src/main/java/io/ballerina/flowmodelgenerator/core/AvailableNodesGenerator.java:90-112 | the while/switch loop leaves the root as FlowCategories of the old root and returns its children |
| AvailableNodes.AvailableNodesGenerator.GetAvailableNodes | flow-model-generator/modules/flow-model-generator-core/src/main/java/io/ballerina/flowmodelgenerator/core/AvailableNodesGenerator.java:76-88 | the root is the flow categories applied after the sorted connections were put under CONNECTIONS; the result is its children followed by the indexed functions |
| ClientModel.Builder.constructor | flow-model-generator/modules/flow-model-generator-core/src/main/java/io/ballerina/flowmodelgenerator/core/model/Client.java:67-71 | a new builder: kind OTHER, label "Client", scope GLOBAL, no range, no value, flags 0 |
| ClientModel.Builder.SetTypedBindingPattern | flow-model-generator/modules/flow-model-generator-core/src/main/java/io/ballerina/flowmodelgenerator/core/model/Client.java:73-76 | range and value come from the binding pattern; the other fields are unchanged |
| ClientModel.Builder.SetVariableSymbol | flow-model-generator/modules/flow-model-generator-core/src/main/java/io/ballerina/flowmodelgenerator/core/model/Client.java:78-81 | a present location replaces the range, a present name replaces the value, and an absent one changes nothing |
| ClientModel.Builder.SetKind | flow-model-generator/modules/flow-model-generator-core/src/main/java/io/ballerina/flowmodelgenerator/core/model/Client.java:83-88 | only the HTTP client type sets kind HTTP and the HTTP label; any other type changes nothing |
| ClientModel.Builder.SetScope | flow-model-generator/modules/flow-model-generator-core/src/main/java/io/ballerina/flowmodelgenerator/core/model/Client.java:90-92 | sets the scope only |
| ClientModel.Builder.Flag | flow-model-generator/modules/flow-model-generator-core/src/main/java/io/ballerina/flowmodelgenerator/core/model/Client.java:94-96 | flags become old flags OR f, other fields unchanged |
| ClientModel.FlagSetsBits | flow-model-generator/modules/flow-model-generator-core/src/main/java/io/ballerina/flowmodelgenerator/core/model/Client.java:94-96 | after flag(f) every bit of f and every earlier bit is set |
| ClientModel.FlagSetsNothingElse | flow-model-generator/modules/flow-model-generator-core/src/main/java/io/ballerina/flowmodelgenerator/core/model/Client.java:94-96 | flag(f) sets no other bit |
| ClientModel.FlagIdempotent | flow-model-generator/modules/flow-model-generator-core/src/main/java/io/ballerina/flowmodelgenerator/core/model/Client.java:94-96 | raising flags that are already set changes nothing, so raising a flag twice is raising it once |
| ClientModel.Builder.Build | flow-model-generator/modules/flow-model-generator-core/src/main/java/io/ballerina/flowmodelgenerator/core/model/Client.java:98-108 | the client carries the builder's state and an id derived from the range; the builder is back in its initial state, and building from the initial state yields the default client |
| ParticipantTracking.Resolve | sequence-model-generator/modules/sequence-model-generator-core/src/main/java/io/ballerina/sequencemodelgenerator/core/ParticipantManager.java:47-52 | a node and module name are found iff the symbol, its location, its module name and the node at that location all resolve; the module name is the symbol's |
| ParticipantTracking.Register | sequence-model-generator/modules/sequence-model-generator-core/src/main/java/io/ballerina/sequencemodelgenerator/core/ParticipantManager.java:59-67 | appending a participant and caching its id under its name keeps the cache equal to the index of the participants |
| ParticipantTracking.LookupHit | sequence-model-generator/modules/sequence-model-generator-core/src/main/java/io/ballerina/sequencemodelgenerator/core/ParticipantManager.java:42-45 | a cached name returns the cached id, changes nothing and does not depend on the frontend, the analyzer or the source id |
| ParticipantTracking.LookupOnlyAppends | sequence-model-generator/modules/sequence-model-generator-core/src/main/java/io/ballerina/sequencemodelgenerator/core/ParticipantManager.java:41-57 | a lookup keeps the old participants as a prefix and adds at most one; the state changes iff a participant is added |
| ParticipantTracking.IndexKeys | sequence-model-generator/modules/sequence-model-generator-core/src/main/java/io/ballerina/sequencemodelgenerator/core/ParticipantManager.java:63-65 | the cached names are exactly the participants' names |
| ParticipantTracking.IndexLastWriter | sequence-model-generator/modules/sequence-model-generator-core/src/main/java/io/ballerina/sequencemodelgenerator/core/ParticipantManager.java:63-65 | a cached id belongs to the last participant generated under that name |
| ParticipantTracking.LookupIdBelongs | sequence-model-generator/modules/sequence-model-generator-core/src/main/java/io/ballerina/sequencemodelgenerator/core/ParticipantManager.java:41-57 | from a consistent state, a lookup keeps the state consistent and any returned id belongs to a listed participant; a cache hit returns the id of a listed participant with the looked-up name; a successful miss returns the id of the participant it appended last |
| ParticipantTracking.RepeatedMissOnNameMismatch | sequence-model-generator/modules/sequence-model-generator-core/src/main/java/io/ballerina/sequencemodelgenerator/core/ParticipantManager.java:42-65 | when the analyzer names the participant differently from the looked-up text, looking the name up twice generates two participants |
| ParticipantTracking.RepeatedLookupIdempotent | sequence-model-generator/modules/sequence-model-generator-core/src/main/java/io/ballerina/sequencemodelgenerator/core/ParticipantManager.java:41-65 | when the name was cached, fails to resolve, or yields a participant of that name, a second lookup returns the same id and changes nothing |
| ParticipantTracking.ParticipantManager.Initialize | sequence-model-generator/modules/sequence-model-generator-core/src/main/java/io/ballerina/sequencemodelgenerator/core/ParticipantManager.java:26-35 | a new manager has an empty cache and no participants |
| ParticipantTracking.ParticipantManager.GetParticipantId | sequence-model-generator/modules/sequence-model-generator-core/src/main/java/io/ballerina/sequencemodelgenerator/core/ParticipantManager.java:41-57 | the new state and the id are those of Lookup; a hit, a failed resolution or a throwing analyzer changes nothing; participants only grow, by at most one |
| ParticipantTracking.ParticipantManager.GenerateParticipant | sequence-model-generator/modules/sequence-model-generator-core/src/main/java/io/ballerina/sequencemodelgenerator/core/ParticipantManager.java:59-67 | appends the analyzer's participant, caches its id under its name and returns the id; when the analyzer throws, nothing changes and there is no id |
| ParticipantTracking.ParticipantManager.GetParticipants | sequence-model-generator/modules/sequence-model-generator-core/src/main/java/io/ballerina/sequencemodelgenerator/core/ParticipantManager.java:69-71 | returns the participant list; every cached name maps to the id of a participant with that name |

## Left out

- Compiler services are inputs, not modelled:
  - syntax tree navigation (`findNode`, `parent`), symbol resolution and `subtypeOf(NIL)`;
  - the cursor-to-offset conversion;
  - `getSyntaxTree` and `getNode`;
  - the participant analyzer's visitor.
- The connector database is a `Catalog` map, and its SQL and exceptions are not modelled. The local function index singleton is the parameter `indexedFunctions`.
- JSON serialisation (Gson), icon URLs, metadata descriptions and the "Function Call" node's metadata are not modelled. A node is identified by its kind only.
- Category.Builder is not part of this model. `Put` assumes that stepIn on the root reuses an existing child of that name, or appends one at the end, and that `node`/`items` append. Every chain in `setDefaultNodes` starts at the root builder, so the missing `stepOut` after STATEMENT and CONTROL has no effect under that assumption. `build()` is assumed not to reset the tree.
- Empty categories are kept. Whatever the serialiser does with them is not modelled.
- The cast to FunctionSymbol in isStopNodeAvailable is taken to succeed for the three definition kinds.
- Connections.LabelLe: compares Dafny characters, which match Java's UTF-16 code units for text in the Basic Multilingual Plane only.
- Connections.SortByLabel: it is stable by construction (equal labels keep stream order), but no lemma states stability.
- ClientModel.Builder.Build: `Objects.hash(lineRange)` is the parameter `idOf`.
- ClientModel: ExpressionAttributes is not part of this model. The HTTP client type and label are named constants with stand-in values.
- ParticipantTracking: a participant is reduced to its id and name. Null names and ids are not modelled.
- ParticipantTracking.ParticipantManager.GetParticipantId: an analyzer that yields a null participant is not modelled. In Java, `null` is appended to the list before reading its id throws, and the exception is then caught, so the list grows while the cache does not. An analyzer that throws during the visit is modelled: the visit runs before the list is changed, so nothing changes and no id is returned.
- ParticipantTracking.ParticipantManager.GetParticipants: returns a value, not the live list, so later mutation through the returned alias is not modelled.
- The static singleton (`initialize`/`getInstance`) is the named constructor `Initialize`.
- The project also has other source files, such as a data mapper types test and a response holder for visible variable types. They are not part of the core and are not modelled.
- Where the code's behaviour may be unexpected, the model follows the code:
  - STOP is appended to CONTROL before BREAK and CONTINUE.
  - With no loop or scoped ancestor, no stop walk runs, so no STOP is offered.
  - One STOP is appended per qualifying ancestor. In nested definitions, STOP can appear more than once, and it can be offered inside a non-nil function when an enclosing definition qualifies.
