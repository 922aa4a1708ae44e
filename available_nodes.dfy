/**
 * AvailableNodesGenerator: for a cursor position, which node kinds the diagram offers
 * for insertion there.
 *
 * The syntax node enclosing the cursor and its parents are given as the ancestor chain,
 * innermost first. Each ancestor carries its syntax kind and, for a function, resource
 * or method definition, what symbol resolution says of it: None when its symbol does
 * not resolve, Some(b) when it resolves, with b true exactly when the return type is
 * absent or a subtype of nil.
 */
module AvailableNodes {
  import opened Wrappers
  import opened Categories
  import opened Connections

  /** The syntax kinds the classifier tells apart; every other kind is OtherKind. */
  datatype SyntaxKind =
    | WhileStatement | ForeachStatement
    | IfElseStatement | LockStatement | TransactionStatement | MatchStatement | DoStatement | OnFailClause
    | FunctionDefinition | ResourceAccessorDefinition | ObjectMethodDefinition
    | BlockStatement | FunctionBody | ModulePart | OtherKind

  datatype Ancestor = Ancestor(kind: SyntaxKind, returnsNil: Option<bool>)

  /** How an ancestor's kind steers the walk: a loop, a branching or scoped block, or neither. */
  datatype Context = Iterating | Scoped | Transparent

  function ContextOf(k: SyntaxKind): Context {
    match k
    case WhileStatement | ForeachStatement => Iterating
    case IfElseStatement | LockStatement | TransactionStatement | MatchStatement | DoStatement | OnFailClause => Scoped
    case _ => Transparent
  }

  /** The index of the innermost ancestor that is a loop or a branching/scoped block, if any. */
  function FirstMatch(a: seq<Ancestor>): (r: Option<nat>)
    ensures r.Some? ==>
      && r.value < |a|
      && ContextOf(a[r.value].kind) != Transparent
      && forall j :: 0 <= j < r.value ==> ContextOf(a[j].kind) == Transparent
    ensures r.None? ==> forall j :: 0 <= j < |a| ==> ContextOf(a[j].kind) == Transparent
  {
    if a == [] then None
    else if ContextOf(a[0].kind) != Transparent then Some(0)
    else
      match FirstMatch(a[1..])
      case None => None
      case Some(k) => Some(k + 1)
  }

  predicate IsDefinition(k: SyntaxKind) {
    k == FunctionDefinition || k == ResourceAccessorDefinition || k == ObjectMethodDefinition
  }

  /** isStopNodeAvailable: a definition whose symbol resolves and whose return type is absent or nil. */
  predicate IsStopNodeAvailable(x: Ancestor) {
    if !IsDefinition(x.kind) then false
    else
      match x.returnsNil
      case None => false
      case Some(nilReturn) => nilReturn
  }

  /** How many ancestors of `a` offer a STOP. */
  function StopCount(a: seq<Ancestor>): (n: nat)
    ensures n <= |a|
  {
    if a == [] then 0 else (if IsStopNodeAvailable(a[0]) then 1 else 0) + StopCount(a[1..])
  }

  /** `n` STOP nodes. */
  function Stops(n: nat): seq<Item> {
    seq(n, _ => Node(Stop))
  }

  const STATEMENT_NODES: seq<Item> := [Node(Variable), Node(Assign), Node(Function), Node(DataMapper)]
  const CONTROL_NODES: seq<Item> := [Node(If), Node(Match), Node(While), Node(Foreach), Node(Return)]
  const ERROR_HANDLING_NODES: seq<Item> := [Node(Fail), Node(Panic)]
  const LOOP_CONTROL_NODES: seq<Item> := [Node(Break), Node(Continue)]

  /** The tree after setDefaultNodes. */
  function WithDefaultNodes(cats: seq<Category>): seq<Category> {
    Put(Put(Put(cats, Statement, STATEMENT_NODES), Control, CONTROL_NODES), ErrorHandling, ERROR_HANDLING_NODES)
  }

  /** The tree after the stop walk over `a`: one STOP appended to CONTROL per qualifying ancestor. */
  function WithStopNodes(cats: seq<Category>, a: seq<Ancestor>): seq<Category>
    decreases |a|
  {
    if a == [] then cats
    else WithStopNodes(if IsStopNodeAvailable(a[0]) then Put(cats, Control, [Node(Stop)]) else cats, a[1..])
  }

  /** The tree after getAvailableFlowNodes walks `a` starting from `cats`. */
  function FlowCategories(cats: seq<Category>, a: seq<Ancestor>): seq<Category> {
    match FirstMatch(a)
    case None => WithDefaultNodes(cats)
    case Some(k) =>
      var withStops := WithStopNodes(WithDefaultNodes(cats), a[k..]);
      if ContextOf(a[k].kind) == Iterating then Put(withStops, Control, LOOP_CONTROL_NODES) else withStops
  }

  /** The CONNECTIONS items: each connection as a category, in the given order. */
  function ConnectionItems(cs: seq<Connection>): seq<Item> {
    seq(|cs|, i requires 0 <= i < |cs| => Sub(AsCategory(cs[i])))
  }

  /** The connection categories getAvailableNodes places under CONNECTIONS. */
  function VisibleConnectionItems(symbols: seq<VisibleSymbol>, catalog: Catalog): seq<Item> {
    ConnectionItems(SortByLabel(VisibleConnections(symbols, catalog)))
  }

  /** The root's children on a fresh generator once the flow nodes are in: CONNECTIONS, STATEMENT, CONTROL, ERROR_HANDLING. */
  function Palette(connections: seq<Item>, control: seq<Item>): seq<Category> {
    [Category(Named(Connections), connections),
     Category(Named(Statement), STATEMENT_NODES),
     Category(Named(Control), control),
     Category(Named(ErrorHandling), ERROR_HANDLING_NODES)]
  }

  /** Once CONTROL exists, the stop walk appends exactly StopCount(a) STOP nodes to it and changes nothing else. */
  lemma {:induction false} StopWalkAppendsStops(cats: seq<Category>, a: seq<Ancestor>)
    requires Has(cats, Control)
    ensures WithStopNodes(cats, a) == Put(cats, Control, Stops(StopCount(a)))
    decreases |a|
  {
    if a == [] {
      PutNothing(cats, Control);
      assert Stops(0) == [];
    } else {
      var m := StopCount(a[1..]);
      if IsStopNodeAvailable(a[0]) {
        var next := Put(cats, Control, [Node(Stop)]);
        StopWalkAppendsStops(next, a[1..]);
        PutPut(cats, Control, [Node(Stop)], Stops(m));
        assert [Node(Stop)] + Stops(m) == Stops(m + 1);
      } else {
        StopWalkAppendsStops(cats, a[1..]);
      }
    }
  }

  /** The stop walk over a concatenation counts both parts. */
  lemma {:induction false} StopCountAppend(a: seq<Ancestor>, b: seq<Ancestor>)
    ensures StopCount(a + b) == StopCount(a) + StopCount(b)
  {
    if a == [] {
      assert a + b == b;
    } else {
      assert (a + b)[0] == a[0] && (a + b)[1..] == a[1..] + b;
      StopCountAppend(a[1..], b);
    }
  }

  /**
   * STOP rule: an ancestor offers a STOP exactly when it is a function, resource
   * accessor or object method definition whose symbol resolves with a nil or absent
   * return type; the walk offers some STOP exactly when one of its ancestors does.
   */
  lemma {:induction false} StopRule(a: seq<Ancestor>)
    ensures forall i :: 0 <= i < |a| ==>
      (IsStopNodeAvailable(a[i]) <==> IsDefinition(a[i].kind) && a[i].returnsNil == Some(true))
    ensures StopCount(a) > 0 <==> exists i :: 0 <= i < |a| && IsStopNodeAvailable(a[i])
  {
    if a != [] {
      StopRule(a[1..]);
      if exists i :: 0 <= i < |a[1..]| && IsStopNodeAvailable(a[1..][i]) {
        var i :| 0 <= i < |a[1..]| && IsStopNodeAvailable(a[1..][i]);
        assert a[i + 1] == a[1..][i];
      }
      if exists i :: 0 <= i < |a| && IsStopNodeAvailable(a[i]) {
        var i :| 0 <= i < |a| && IsStopNodeAvailable(a[i]);
        if i > 0 { assert a[1..][i - 1] == a[i]; }
      }
    }
  }

  /** setDefaultNodes after CONNECTIONS adds STATEMENT, CONTROL and ERROR_HANDLING after it, in that order. */
  lemma DefaultNodesAfterConnections(connections: seq<Item>)
    ensures WithDefaultNodes([Category(Named(Connections), connections)]) == Palette(connections, CONTROL_NODES)
  {
    var c0 := [Category(Named(Connections), connections)];
    var c1 := c0 + [Category(Named(Statement), STATEMENT_NODES)];
    var c2 := c1 + [Category(Named(Control), CONTROL_NODES)];
    var c3 := c2 + [Category(Named(ErrorHandling), ERROR_HANDLING_NODES)];
    assert Put(c0, Statement, STATEMENT_NODES) == c1 by {
      assert !Has(c0, Statement);
    }
    assert Put(c1, Control, CONTROL_NODES) == c2 by {
      assert !Has(c1, Control) by {
        forall i | 0 <= i < |c1| ensures c1[i].title != Named(Control) {}
      }
    }
    assert Put(c2, ErrorHandling, ERROR_HANDLING_NODES) == c3 by {
      assert !Has(c2, ErrorHandling) by {
        forall i | 0 <= i < |c2| ensures c2[i].title != Named(ErrorHandling) {}
      }
    }
  }

  /** Appending to CONTROL in the palette extends the control list only. */
  lemma PaletteControl(connections: seq<Item>, control: seq<Item>, more: seq<Item>)
    ensures Put(Palette(connections, control), Control, more) == Palette(connections, control + more)
  {
    var before := [Category(Named(Connections), connections), Category(Named(Statement), STATEMENT_NODES)];
    var after := [Category(Named(ErrorHandling), ERROR_HANDLING_NODES)];
    assert !Has(before, Control) by {
      forall i | 0 <= i < |before| ensures before[i].title != Named(Control) {}
    }
    PutExisting(before, Category(Named(Control), control), after, Control, more);
    assert Palette(connections, control) == before + [Category(Named(Control), control)] + after;
  }

  /** The palette the flow walk produces on a fresh generator whose CONNECTIONS holds `connections`. */
  lemma FlowPalette(connections: seq<Item>, a: seq<Ancestor>)
    ensures FirstMatch(a).None? ==>
      FlowCategories(Put([], Connections, connections), a) == Palette(connections, CONTROL_NODES)
    ensures FirstMatch(a).Some? ==>
      var k := FirstMatch(a).value;
      FlowCategories(Put([], Connections, connections), a) ==
        Palette(connections, CONTROL_NODES + Stops(StopCount(a[k..]))
                             + (if ContextOf(a[k].kind) == Iterating then LOOP_CONTROL_NODES else []))
  {
    var c0 := Put([], Connections, connections);
    assert c0 == [Category(Named(Connections), connections)];
    DefaultNodesAfterConnections(connections);
    var defaults := Palette(connections, CONTROL_NODES);
    if FirstMatch(a).Some? {
      var k := FirstMatch(a).value;
      var n := StopCount(a[k..]);
      assert defaults[2].title == Named(Control);
      StopWalkAppendsStops(defaults, a[k..]);
      PaletteControl(connections, CONTROL_NODES, Stops(n));
      if ContextOf(a[k].kind) == Iterating {
        PaletteControl(connections, CONTROL_NODES + Stops(n), LOOP_CONTROL_NODES);
      } else {
        assert CONTROL_NODES + Stops(n) + [] == CONTROL_NODES + Stops(n);
      }
    }
  }

  /**
   * Loop ancestor: when the innermost loop or branching/scoped ancestor is a while or
   * foreach loop, the palette is STATEMENT = [VARIABLE, ASSIGN, FUNCTION, DATA_MAPPER],
   * CONTROL = [IF, MATCH, WHILE, FOREACH, RETURN, the STOPs, BREAK, CONTINUE] and
   * ERROR_HANDLING = [FAIL, PANIC], after CONNECTIONS.
   */
  lemma LoopAncestor(connections: seq<Item>, a: seq<Ancestor>, k: nat)
    requires k < |a| && ContextOf(a[k].kind) == Iterating
    requires forall j :: 0 <= j < k ==> ContextOf(a[j].kind) == Transparent
    ensures FlowCategories(Put([], Connections, connections), a) ==
      [Category(Named(Connections), connections),
       Category(Named(Statement), [Node(Variable), Node(Assign), Node(Function), Node(DataMapper)]),
       Category(Named(Control), [Node(If), Node(Match), Node(While), Node(Foreach), Node(Return)]
                                + Stops(StopCount(a[k..])) + [Node(Break), Node(Continue)]),
       Category(Named(ErrorHandling), [Node(Fail), Node(Panic)])]
  {
    assert FirstMatch(a) == Some(k);
    FlowPalette(connections, a);
  }

  /**
   * Branching or scoped ancestor: the default palette plus the STOPs; no BREAK and
   * no CONTINUE anywhere.
   */
  lemma ScopedAncestor(connections: seq<Item>, a: seq<Ancestor>, k: nat)
    requires k < |a| && ContextOf(a[k].kind) == Scoped
    requires forall j :: 0 <= j < k ==> ContextOf(a[j].kind) == Transparent
    ensures FlowCategories(Put([], Connections, connections), a) ==
      [Category(Named(Connections), connections),
       Category(Named(Statement), [Node(Variable), Node(Assign), Node(Function), Node(DataMapper)]),
       Category(Named(Control), [Node(If), Node(Match), Node(While), Node(Foreach), Node(Return)]
                                + Stops(StopCount(a[k..]))),
       Category(Named(ErrorHandling), [Node(Fail), Node(Panic)])]
  {
    assert FirstMatch(a) == Some(k);
    FlowPalette(connections, a);
    assert CONTROL_NODES + Stops(StopCount(a[k..])) + [] == CONTROL_NODES + Stops(StopCount(a[k..]));
  }

  /**
   * No loop and no branching/scoped ancestor: exactly the default palette, with no
   * STOP (the stop walk is not run on this path), BREAK or CONTINUE, however many
   * other ancestors there are.
   */
  lemma NoQualifyingAncestor(connections: seq<Item>, a: seq<Ancestor>)
    requires forall j :: 0 <= j < |a| ==> ContextOf(a[j].kind) == Transparent
    ensures FlowCategories(Put([], Connections, connections), a) ==
      [Category(Named(Connections), connections),
       Category(Named(Statement), [Node(Variable), Node(Assign), Node(Function), Node(DataMapper)]),
       Category(Named(Control), [Node(If), Node(Match), Node(While), Node(Foreach), Node(Return)]),
       Category(Named(ErrorHandling), [Node(Fail), Node(Panic)])]
  {
    assert FirstMatch(a) == None;
    FlowPalette(connections, a);
  }

  /** The decision ignores every ancestor outside the first match, whatever they are. */
  lemma FirstMatchDecides(a: seq<Ancestor>, k: nat, outer: seq<Ancestor>)
    requires FirstMatch(a) == Some(k)
    ensures FirstMatch(a[..k + 1] + outer) == Some(k)
  {
    var b := a[..k + 1] + outer;
    assert forall j :: 0 <= j <= k ==> b[j] == a[j];
  }

  /**
   * First match wins: once an ancestor is a loop or a branching/scoped block, the
   * ancestors outside it are not classified; they matter only through the STOPs they
   * contribute.
   */
  lemma {:induction false} FirstMatchWins(cats: seq<Category>, a: seq<Ancestor>, k: nat, outer: seq<Ancestor>)
    requires FirstMatch(a) == Some(k)
    requires StopCount(outer) == StopCount(a[k + 1..])
    ensures FirstMatch(a[..k + 1] + outer) == Some(k)
    ensures FlowCategories(cats, a[..k + 1] + outer) == FlowCategories(cats, a)
  {
    var b := a[..k + 1] + outer;
    FirstMatchDecides(a, k, outer);
    var d := WithDefaultNodes(cats);
    assert Has(d, Control) by {
      PutKeeps(Put(Put(cats, Statement, STATEMENT_NODES), Control, CONTROL_NODES), ErrorHandling, ERROR_HANDLING_NODES, Control);
    }
    assert StopCount(b[k..]) == StopCount(a[k..]) by {
      assert b[k..] == [a[k]] + outer;
      assert a[k..] == [a[k]] + a[k + 1..];
      StopCountAppend([a[k]], outer);
      StopCountAppend([a[k]], a[k + 1..]);
    }
    assert b[k] == a[k];
    StopWalkSameCount(d, b[k..], a[k..]);
  }

  /** Two stop walks with the same number of qualifying ancestors leave the same tree. */
  lemma StopWalkSameCount(cats: seq<Category>, x: seq<Ancestor>, y: seq<Ancestor>)
    requires Has(cats, Control) && StopCount(x) == StopCount(y)
    ensures WithStopNodes(cats, x) == WithStopNodes(cats, y)
  {
    StopWalkAppendsStops(cats, x);
    StopWalkAppendsStops(cats, y);
  }

  /** The innermost loop or branching/scoped ancestor is a while or foreach loop. */
  predicate InsideLoop(a: seq<Ancestor>) {
    FirstMatch(a).Some? && ContextOf(a[FirstMatch(a).value].kind) == Iterating
  }

  /** How many STOPs the walk over `a` offers. */
  function OfferedStops(a: seq<Ancestor>): nat {
    match FirstMatch(a)
    case None => 0
    case Some(k) => StopCount(a[k..])
  }

  /** BREAK and CONTINUE are offered exactly inside a loop. */
  lemma LoopControlOnlyInLoops(connections: seq<Item>, a: seq<Ancestor>)
    ensures var r := FlowCategories(Put([], Connections, connections), a);
      && |r| == 4 && r[2].title == Named(Control)
      && (Node(Break) in r[2].items <==> InsideLoop(a))
      && (Node(Continue) in r[2].items <==> InsideLoop(a))
  {
    var n := OfferedStops(a);
    var extra := if InsideLoop(a) then LOOP_CONTROL_NODES else [];
    var control := CONTROL_NODES + Stops(n) + extra;
    var r := FlowCategories(Put([], Connections, connections), a);
    assert r == Palette(connections, control) by {
      FlowPalette(connections, a);
      if FirstMatch(a).None? { assert CONTROL_NODES == control; }
    }
    assert Node(Break) !in Stops(n) && Node(Continue) !in Stops(n);
  }

  /** STOP is offered once per qualifying definition from the deciding ancestor outward, and only then. */
  lemma StopsOffered(connections: seq<Item>, a: seq<Ancestor>)
    ensures var r := FlowCategories(Put([], Connections, connections), a);
      && |r| == 4 && r[2].title == Named(Control)
      && multiset(r[2].items)[Node(Stop)] == OfferedStops(a)
  {
    var n := OfferedStops(a);
    var extra := if InsideLoop(a) then LOOP_CONTROL_NODES else [];
    var control := CONTROL_NODES + Stops(n) + extra;
    var r := FlowCategories(Put([], Connections, connections), a);
    assert r == Palette(connections, control) by {
      FlowPalette(connections, a);
      if FirstMatch(a).None? { assert CONTROL_NODES == control; }
    }
    ControlStops(n, extra);
  }

  /** CONTROL's defaults and loop controls hold no STOP, so CONTROL holds exactly the n STOPs of the walk. */
  lemma ControlStops(n: nat, extra: seq<Item>)
    requires extra == [] || extra == LOOP_CONTROL_NODES
    ensures multiset(CONTROL_NODES + Stops(n) + extra)[Node(Stop)] == n
  {
    StopsMultiset(n);
    assert multiset(CONTROL_NODES)[Node(Stop)] == 0;
    assert multiset(extra)[Node(Stop)] == 0;
    assert multiset(CONTROL_NODES + Stops(n) + extra)
        == multiset(CONTROL_NODES) + multiset(Stops(n)) + multiset(extra);
  }

  /** Every item is a plain node of a kind other than the concurrency kinds. */
  predicate PlainNonConcurrent(items: seq<Item>) {
    forall i :: 0 <= i < |items| ==> items[i].Node? && !IsConcurrencyKind(items[i].kind)
  }

  /** The concurrency kinds (and everything but plain nodes) never appear in the flow categories. */
  lemma NoConcurrencyNodes(connections: seq<Item>, a: seq<Ancestor>)
    ensures var r := FlowCategories(Put([], Connections, connections), a);
      && |r| == 4
      && PlainNonConcurrent(r[1].items) && PlainNonConcurrent(r[2].items) && PlainNonConcurrent(r[3].items)
  {
    var n := OfferedStops(a);
    var extra := if InsideLoop(a) then LOOP_CONTROL_NODES else [];
    var control := CONTROL_NODES + Stops(n) + extra;
    var r := FlowCategories(Put([], Connections, connections), a);
    assert r == Palette(connections, control) by {
      FlowPalette(connections, a);
      if FirstMatch(a).None? { assert CONTROL_NODES == control; }
    }
    assert PlainNonConcurrent(control) by {
      assert PlainNonConcurrent(CONTROL_NODES) && PlainNonConcurrent(Stops(n)) && PlainNonConcurrent(extra);
      PlainNonConcurrentAppend(CONTROL_NODES, Stops(n));
      PlainNonConcurrentAppend(CONTROL_NODES + Stops(n), extra);
    }
    assert PlainNonConcurrent(STATEMENT_NODES) && PlainNonConcurrent(ERROR_HANDLING_NODES);
  }

  lemma PlainNonConcurrentAppend(x: seq<Item>, y: seq<Item>)
    requires PlainNonConcurrent(x) && PlainNonConcurrent(y)
    ensures PlainNonConcurrent(x + y)
  {
    forall i | 0 <= i < |x + y| ensures (x + y)[i].Node? && !IsConcurrencyKind((x + y)[i].kind) {
      if i >= |x| { assert (x + y)[i] == y[i - |x|]; }
    }
  }

  lemma {:induction false} StopsMultiset(n: nat)
    ensures multiset(Stops(n))[Node(Stop)] == n
  {
    if n > 0 {
      StopsMultiset(n - 1);
      assert Stops(n) == Stops(n - 1) + [Node(Stop)];
    }
  }

  /**
   * Connection categories: one per visible client variable that yields a connection
   * (and nothing for any other symbol), ascending by label.
   */
  lemma ConnectionCategories(visible: seq<VisibleSymbol>, catalog: Catalog)
    ensures var found := VisibleConnections(visible, catalog);
      var cs := SortByLabel(found);
      && SortedByLabel(cs)
      && multiset(cs) == multiset(found)
      && (forall c :: c in cs <==> exists i :: 0 <= i < |visible| && ConnectionOf(visible[i], catalog) == Some(c))
      && VisibleConnectionItems(visible, catalog) == ConnectionItems(cs)
  {
    var found := VisibleConnections(visible, catalog);
    var cs := SortByLabel(found);
    SortByLabelSorted(found);
    forall c ensures c in cs <==> exists i :: 0 <= i < |visible| && ConnectionOf(visible[i], catalog) == Some(c) {
      VisibleConnectionsMembers(visible, catalog, c);
      assert c in cs <==> c in multiset(cs);
      assert c in found <==> c in multiset(found);
    }
  }

  /**
   * The list getAvailableNodes returns on a fresh generator: the CONNECTIONS category
   * first, then STATEMENT, CONTROL and ERROR_HANDLING, then the indexed functions.
   */
  lemma AvailableNodesLayout(visible: seq<VisibleSymbol>, catalog: Catalog, a: seq<Ancestor>,
                             indexedFunctions: seq<Item>)
    ensures var items := AsItems(FlowCategories(Put([], Connections, VisibleConnectionItems(visible, catalog)), a))
                         + indexedFunctions;
      && |items| == 4 + |indexedFunctions|
      && items[0] == Sub(Category(Named(Connections), VisibleConnectionItems(visible, catalog)))
      && items[1] == Sub(Category(Named(Statement), STATEMENT_NODES))
      && items[2].Sub? && items[2].category.title == Named(Control)
      && items[3] == Sub(Category(Named(ErrorHandling), ERROR_HANDLING_NODES))
      && items[4..] == indexedFunctions
  {
    var conns := VisibleConnectionItems(visible, catalog);
    FlowPalette(conns, a);
  }

  class AvailableNodesGenerator {
    /** The children of the ROOT category builder, in order. */
    var root: seq<Category>

    constructor ()
      ensures root == []
    {
      root := [];
    }

    method SetDefaultNodes()
      modifies this
      ensures root == WithDefaultNodes(old(root))
    {
      root := Put(root, Statement, STATEMENT_NODES);
      root := Put(root, Control, CONTROL_NODES);
      root := Put(root, ErrorHandling, ERROR_HANDLING_NODES);
    }

    /** setStopNode: walks from `ancestors[from]` to the outermost ancestor. */
    method SetStopNode(ancestors: seq<Ancestor>, from: nat)
      requires from <= |ancestors|
      modifies this
      ensures root == WithStopNodes(old(root), ancestors[from..])
    {
      var i := from;
      while i < |ancestors|
        invariant from <= i <= |ancestors|
        invariant WithStopNodes(root, ancestors[i..]) == WithStopNodes(old(root), ancestors[from..])
      {
        assert ancestors[i..][1..] == ancestors[i + 1..];
        if IsStopNodeAvailable(ancestors[i]) {
          root := Put(root, Control, [Node(Stop)]);
        }
        i := i + 1;
      }
    }

    method SetAvailableDefaultNodes(ancestors: seq<Ancestor>, at: nat)
      requires at < |ancestors|
      modifies this
      ensures root == WithStopNodes(WithDefaultNodes(old(root)), ancestors[at..])
    {
      SetDefaultNodes();
      SetStopNode(ancestors, at);
    }

    method SetAvailableNodesForIteratingBlock(ancestors: seq<Ancestor>, at: nat)
      requires at < |ancestors|
      modifies this
      ensures root == Put(WithStopNodes(WithDefaultNodes(old(root)), ancestors[at..]), Control, LOOP_CONTROL_NODES)
    {
      SetDefaultNodes();
      SetStopNode(ancestors, at);
      root := Put(root, Control, LOOP_CONTROL_NODES);
    }

    /** getAvailableFlowNodes: the first loop or branching/scoped ancestor decides; otherwise the defaults. */
    method GetAvailableFlowNodes(ancestors: seq<Ancestor>) returns (items: seq<Item>)
      modifies this
      ensures root == FlowCategories(old(root), ancestors)
      ensures items == AsItems(root)
    {
      var i := 0;
      while i < |ancestors|
        invariant 0 <= i <= |ancestors|
        invariant root == old(root)
        invariant forall j :: 0 <= j < i ==> ContextOf(ancestors[j].kind) == Transparent
      {
        match ContextOf(ancestors[i].kind)
        case Iterating =>
          assert FirstMatch(ancestors) == Some(i);
          SetAvailableNodesForIteratingBlock(ancestors, i);
          return AsItems(root);
        case Scoped =>
          assert FirstMatch(ancestors) == Some(i);
          SetAvailableDefaultNodes(ancestors, i);
          return AsItems(root);
        case Transparent =>
          i := i + 1;
      }
      SetDefaultNodes();
      items := AsItems(root);
    }

    /**
     * getAvailableNodes: the connection categories of the visible symbols, sorted by
     * label, go under CONNECTIONS; then the flow categories are added; the indexed
     * library functions follow the root's categories.
     */
    method GetAvailableNodes(visible: seq<VisibleSymbol>, catalog: Catalog, ancestors: seq<Ancestor>,
                             indexedFunctions: seq<Item>) returns (items: seq<Item>)
      modifies this
      ensures root == FlowCategories(Put(old(root), Connections, VisibleConnectionItems(visible, catalog)), ancestors)
      ensures items == AsItems(root) + indexedFunctions
    {
      var found := CollectConnections(visible, catalog);
      root := Put(root, Connections, ConnectionItems(SortByLabel(found)));
      var flowItems := GetAvailableFlowNodes(ancestors);
      items := flowItems + indexedFunctions;
    }
  }
}
