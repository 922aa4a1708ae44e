/**
 * Connection enumeration of AvailableNodesGenerator: which visible symbols become
 * connection categories, the action items fetched for each from the connector
 * database, and the ordering of the categories by label.
 *
 * The compiler frontend is replaced by a descriptor per visible symbol that already
 * holds the result of the downcasts the Java code performs, and the database by a
 * catalog value holding the rows its two queries return.
 */
module Connections {
  import opened Wrappers
  import opened Categories

  /** A row of the function database (FunctionResult). */
  datatype FunctionResult = FunctionResult(functionId: int, name: string, description: string,
                                           org: string, packageName: string, version: string)

  /**
   * The rows the connector database answers with: CONNECTOR functions keyed by
   * (org, module, symbol), and the actions of each connector keyed by its function id.
   */
  datatype Catalog = Catalog(connectors: map<(string, string, string), FunctionResult>,
                             actions: map<int, seq<FunctionResult>>)

  /** The symbol under which a client's connector (its `init`) is stored. */
  const CONNECTOR_SYMBOL := "init"

  function GetFunction(catalog: Catalog, org: string, moduleName: string, symbol: string): Option<FunctionResult> {
    if (org, moduleName, symbol) in catalog.connectors then Some(catalog.connectors[(org, moduleName, symbol)]) else None
  }

  function GetConnectorActions(catalog: Catalog, functionId: int): seq<FunctionResult> {
    if functionId in catalog.actions then catalog.actions[functionId] else []
  }

  /** The ACTION_CALL palette item for one action of a connector. */
  function ActionItem(connector: FunctionResult, action: FunctionResult): Item {
    Action(action.name, action.description, connector.org, connector.packageName,
           ClientSymbol, action.name, action.functionId)
  }

  /** The action items of the connector of module (org, moduleName), one per action in database order. */
  function ActionsOf(catalog: Catalog, org: string, moduleName: string): seq<Item> {
    match GetFunction(catalog, org, moduleName, CONNECTOR_SYMBOL)
    case None => []
    case Some(connector) =>
      var actions := GetConnectorActions(catalog, connector.functionId);
      seq(|actions|, i requires 0 <= i < |actions| => ActionItem(connector, actions[i]))
  }

  /**
   * fetchConnections: no connector gives no items; otherwise one ACTION_CALL item per
   * connector action, in the order the database returns them, whose symbol and label
   * are the action's name, whose id is the action's function id and whose object is
   * the client symbol.
   */
  method FetchConnections(catalog: Catalog, org: string, moduleName: string) returns (items: seq<Item>)
    ensures GetFunction(catalog, org, moduleName, CONNECTOR_SYMBOL).None? ==> items == []
    ensures GetFunction(catalog, org, moduleName, CONNECTOR_SYMBOL).Some? ==>
      var connector := GetFunction(catalog, org, moduleName, CONNECTOR_SYMBOL).value;
      var actions := GetConnectorActions(catalog, connector.functionId);
      && |items| == |actions|
      && forall i :: 0 <= i < |actions| ==>
           && items[i].Action?
           && items[i].symbol == items[i].title == actions[i].name
           && items[i].id == actions[i].functionId
           && items[i].obj == ClientSymbol
           && items[i].org == connector.org
           && items[i].moduleName == connector.packageName
           && items[i] == ActionItem(connector, actions[i])
    ensures items == ActionsOf(catalog, org, moduleName)
  {
    var connectorResult := GetFunction(catalog, org, moduleName, CONNECTOR_SYMBOL);
    if connectorResult.None? {
      return [];
    }
    var connector := connectorResult.value;
    var actions := GetConnectorActions(catalog, connector.functionId);
    items := [];
    for i := 0 to |actions|
      invariant |items| == i
      invariant forall j :: 0 <= j < i ==> items[j] == ActionItem(connector, actions[j])
    {
      items := items + [ActionItem(connector, actions[i])];
    }
  }

  datatype TypeKind = ClassKind | OtherTypeKind

  datatype Qualifier = Client | Isolated | Readonly | Public | Service

  /** A module symbol: organisation, name (which may be missing) and version. */
  datatype ModuleInfo = ModuleInfo(org: string, name: Option<string>, version: string)

  /** The type a type reference refers to: its kind, its qualifiers and its module (owner), if any. */
  datatype ReferredType = ReferredType(kind: TypeKind, qualifiers: set<Qualifier>, owner: Option<ModuleInfo>)

  /**
   * A symbol visible at the cursor. `referredType` is None when the symbol is not a
   * variable or its type is not a type reference (the two casts that throw).
   */
  datatype VisibleSymbol = VisibleSymbol(name: Option<string>, referredType: Option<ReferredType>)

  /** A variable whose type refers to a class carrying the CLIENT qualifier. */
  predicate IsClientVariable(s: VisibleSymbol) {
    s.referredType.Some? && s.referredType.value.kind == ClassKind && Client in s.referredType.value.qualifiers
  }

  /** A connection category before it is placed in the tree: the symbol's name and the connector's actions. */
  datatype Connection = Connection(title: string, actions: seq<Item>)

  function AsCategory(c: Connection): Category {
    Category(Text(c.title), c.actions)
  }

  /**
   * getConnection: a client variable whose module and module name are known and
   * whose own name is known becomes a connection labelled with that name holding the
   * actions of its module's connector; every other symbol, including one on which a
   * lookup throws, yields nothing.
   */
  function ConnectionOf(s: VisibleSymbol, catalog: Catalog): (r: Option<Connection>)
    ensures r.Some? <==>
      IsClientVariable(s) && s.referredType.value.owner.Some? &&
      s.referredType.value.owner.value.name.Some? && s.name.Some?
    ensures r.Some? ==>
      r.value.title == s.name.value &&
      r.value.actions == ActionsOf(catalog, s.referredType.value.owner.value.org,
                                   s.referredType.value.owner.value.name.value)
  {
    if !IsClientVariable(s) then None
    else
      match s.referredType.value.owner
      case None => None
      case Some(m) =>
        match m.name
        case None => None
        case Some(moduleName) =>
          match s.name
          case None => None
          case Some(symbolName) => Some(Connection(symbolName, ActionsOf(catalog, m.org, moduleName)))
  }

  /** getConnection as the generator runs it, fetching the actions from the database. */
  method GetConnection(s: VisibleSymbol, catalog: Catalog) returns (r: Option<Connection>)
    ensures r == ConnectionOf(s, catalog)
  {
    if !IsClientVariable(s) || s.referredType.value.owner.None? {
      return None;
    }
    var m := s.referredType.value.owner.value;
    if m.name.None? {
      return None;
    }
    var actions := FetchConnections(catalog, m.org, m.name.value);
    if s.name.None? {
      return None;
    }
    r := Some(Connection(s.name.value, actions));
  }

  /** The connections of the visible symbols, in the order the symbols are visited (`flatMap`). */
  function VisibleConnections(symbols: seq<VisibleSymbol>, catalog: Catalog): (r: seq<Connection>)
    ensures |r| <= |symbols|
  {
    if symbols == [] then []
    else
      VisibleConnections(symbols[..|symbols| - 1], catalog)
      + (match ConnectionOf(symbols[|symbols| - 1], catalog) case None => [] case Some(c) => [c])
  }

  /** A connection is enumerated exactly when some visible symbol yields it. */
  lemma {:induction false} VisibleConnectionsMembers(symbols: seq<VisibleSymbol>, catalog: Catalog, c: Connection)
    ensures c in VisibleConnections(symbols, catalog) <==>
            exists i :: 0 <= i < |symbols| && ConnectionOf(symbols[i], catalog) == Some(c)
  {
    if symbols != [] {
      var init := symbols[..|symbols| - 1];
      var last := symbols[|symbols| - 1];
      VisibleConnectionsMembers(init, catalog, c);
      if exists i :: 0 <= i < |init| && ConnectionOf(init[i], catalog) == Some(c) {
        var i :| 0 <= i < |init| && ConnectionOf(init[i], catalog) == Some(c);
        assert symbols[i] == init[i];
      }
      if exists i :: 0 <= i < |symbols| && ConnectionOf(symbols[i], catalog) == Some(c) {
        var i :| 0 <= i < |symbols| && ConnectionOf(symbols[i], catalog) == Some(c);
        if i < |init| { assert init[i] == symbols[i]; }
      }
    }
  }

  /** How many of the symbols yield the connection `c`. */
  function YieldCount(symbols: seq<VisibleSymbol>, catalog: Catalog, c: Connection): nat {
    if symbols == [] then 0
    else YieldCount(symbols[1..], catalog, c) + (if ConnectionOf(symbols[0], catalog) == Some(c) then 1 else 0)
  }

  /** Each symbol that yields a connection contributes exactly one occurrence of it, and nothing else is enumerated. */
  lemma {:induction false} VisibleConnectionsCount(symbols: seq<VisibleSymbol>, catalog: Catalog, c: Connection)
    ensures multiset(VisibleConnections(symbols, catalog))[c] == YieldCount(symbols, catalog, c)
  {
    if symbols != [] {
      var init := symbols[..|symbols| - 1];
      var last := symbols[|symbols| - 1];
      VisibleConnectionsCount(init, catalog, c);
      YieldCountSnoc(init, last, catalog, c);
      assert init + [last] == symbols;
    }
  }

  lemma {:induction false} YieldCountSnoc(symbols: seq<VisibleSymbol>, s: VisibleSymbol, catalog: Catalog, c: Connection)
    ensures YieldCount(symbols + [s], catalog, c)
            == YieldCount(symbols, catalog, c) + (if ConnectionOf(s, catalog) == Some(c) then 1 else 0)
  {
    if symbols != [] {
      assert (symbols + [s])[1..] == symbols[1..] + [s];
      YieldCountSnoc(symbols[1..], s, catalog, c);
    } else {
      assert [s][1..] == [];
    }
  }

  /** The stream over the visible symbols: getConnection on each, keeping the connections found, in order. */
  method CollectConnections(symbols: seq<VisibleSymbol>, catalog: Catalog) returns (found: seq<Connection>)
    ensures found == VisibleConnections(symbols, catalog)
  {
    found := [];
    for i := 0 to |symbols|
      invariant found == VisibleConnections(symbols[..i], catalog)
    {
      var c := GetConnection(symbols[i], catalog);
      ghost var prefix := symbols[..i + 1];
      assert prefix[..i] == symbols[..i] && prefix[i] == symbols[i];
      if c.Some? {
        found := found + [c.value];
      }
    }
    assert symbols[..|symbols|] == symbols;
  }

  /**
   * Java's String.compareTo(a, b) <= 0: the first differing character decides, and
   * a proper prefix sorts first.
   */
  predicate LabelLe(a: string, b: string)
    decreases |a|
  {
    |a| == 0 || (|b| > 0 && (a[0] < b[0] || (a[0] == b[0] && LabelLe(a[1..], b[1..]))))
  }

  lemma {:induction false} LabelLeTotal(a: string, b: string)
    ensures LabelLe(a, b) || LabelLe(b, a)
    decreases |a|
  {
    if |a| > 0 && |b| > 0 && a[0] == b[0] {
      LabelLeTotal(a[1..], b[1..]);
    }
  }

  lemma {:induction false} LabelLeTrans(a: string, b: string, c: string)
    requires LabelLe(a, b) && LabelLe(b, c)
    ensures LabelLe(a, c)
    decreases |a|
  {
    if |a| > 0 && a[0] == b[0] && b[0] == c[0] {
      LabelLeTrans(a[1..], b[1..], c[1..]);
    }
  }

  /** Ascending by label, as `Comparator.comparing(label)` orders them. */
  predicate SortedByLabel(s: seq<Connection>) {
    forall i, j :: 0 <= i < j < |s| ==> LabelLe(s[i].title, s[j].title)
  }

  /** Places `x` after every connection whose label is not greater, so that equal labels keep their order. */
  function Insert(x: Connection, s: seq<Connection>): (r: seq<Connection>)
    ensures multiset(r) == multiset(s) + multiset{x}
  {
    if s == [] || !LabelLe(s[0].title, x.title) then [x] + s
    else
      assert s == [s[0]] + s[1..];
      [s[0]] + Insert(x, s[1..])
  }

  /** The stable sort of the stream's `sorted` step. */
  function SortByLabel(s: seq<Connection>): (r: seq<Connection>)
    ensures multiset(r) == multiset(s)
  {
    if s == [] then []
    else
      assert s == s[..|s| - 1] + [s[|s| - 1]];
      Insert(s[|s| - 1], SortByLabel(s[..|s| - 1]))
  }

  lemma {:induction false} InsertSorted(x: Connection, s: seq<Connection>)
    requires SortedByLabel(s)
    ensures SortedByLabel(Insert(x, s))
  {
    var r := Insert(x, s);
    if s == [] || !LabelLe(s[0].title, x.title) {
      if s != [] {
        LabelLeTotal(s[0].title, x.title);
        forall j | 0 <= j < |s| ensures LabelLe(x.title, s[j].title) {
          if j > 0 { LabelLeTrans(x.title, s[0].title, s[j].title); }
        }
      }
      assert forall j :: 0 < j < |r| ==> r[j] == s[j - 1];
    } else {
      var tail := Insert(x, s[1..]);
      InsertSorted(x, s[1..]);
      forall j | 0 <= j < |tail| ensures LabelLe(s[0].title, tail[j].title) {
        assert tail[j] in multiset(tail);
        if tail[j] != x {
          assert tail[j] in multiset(s[1..]);
          var k :| 0 <= k < |s[1..]| && s[1..][k] == tail[j];
          assert s[k + 1] == tail[j];
        }
      }
      assert forall j :: 0 < j < |r| ==> r[j] == tail[j - 1];
    }
  }

  /** The sorted connections are ascending by label and are exactly the connections given, each as often. */
  lemma {:induction false} SortByLabelSorted(s: seq<Connection>)
    ensures SortedByLabel(SortByLabel(s))
    ensures multiset(SortByLabel(s)) == multiset(s)
  {
    if s != [] {
      SortByLabelSorted(s[..|s| - 1]);
      InsertSorted(s[|s| - 1], SortByLabel(s[..|s| - 1]));
    }
  }
}
