/**
 * The palette vocabulary of the flow model: insertable node kinds, the items shown in
 * the palette, and the category tree that AvailableNodesGenerator fills through its
 * root Category.Builder.
 *
 * The root builder is modelled by the ordered list of its child categories. Stepping
 * into a category name reuses the child of that name when there is one and otherwise
 * appends a new, empty child at the end; nodes are appended to that child in call order.
 */
module Categories {

  /** The insertable diagram node kinds (NodeKind). */
  datatype NodeKind =
    | Variable | Assign | Function | DataMapper
    | If | Match | While | Foreach | Return | Break | Continue | Stop
    | ErrorHandler | Fail | Panic
    | Transaction | Commit | Rollback | Retry | Lock | Start
    | NewConnection | ActionCall

  /** The kinds reserved for concurrency, which the palette does not offer yet. */
  predicate IsConcurrencyKind(k: NodeKind) {
    k in {Transaction, Commit, Rollback, Retry, Lock, Start}
  }

  /** The fixed category names (Category.Name). */
  datatype CategoryName = Root | Statement | Control | ErrorHandling | Concurrency | Connections

  /** A category is labelled either by one of the fixed names or, for a connection, by a symbol's name. */
  datatype Label = Named(name: CategoryName) | Text(text: string)

  /** The object of an action call's codedata: always the connector's client symbol. */
  datatype ObjectName = ClientSymbol

  /**
   * A palette entry: a default node of a kind, an action call of a connector, or a
   * nested category (categories are items themselves).
   */
  datatype Item =
    | Node(kind: NodeKind)
    | Action(title: string, description: string, org: string, moduleName: string,
             obj: ObjectName, symbol: string, id: int)
    | Sub(category: Category)

  datatype Category = Category(title: Label, items: seq<Item>)

  /** True when some child category carries the fixed name `name`. */
  predicate Has(cats: seq<Category>, name: CategoryName) {
    exists i :: 0 <= i < |cats| && cats[i].title == Named(name)
  }

  /** The position of the first child named `name`, or |cats| when there is none. */
  function IndexOf(cats: seq<Category>, name: CategoryName): (r: nat)
    ensures r <= |cats|
    ensures r < |cats| ==> cats[r].title == Named(name)
    ensures forall j :: 0 <= j < r ==> cats[j].title != Named(name)
  {
    if cats == [] then 0
    else if cats[0].title == Named(name) then 0
    else IndexOf(cats[1..], name) + 1
  }

  /**
   * `stepIn(name)` followed by appending `items`: the items go to the end of the
   * first child named `name`, or into a new child appended after all others.
   */
  function Put(cats: seq<Category>, name: CategoryName, items: seq<Item>): (r: seq<Category>)
    ensures Has(r, name)
    ensures !Has(cats, name) ==> r == cats + [Category(Named(name), items)]
    ensures Has(cats, name) ==> |r| == |cats|
  {
    var i := IndexOf(cats, name);
    if i == |cats| then
      var r := cats + [Category(Named(name), items)];
      assert r[|cats|].title == Named(name);
      r
    else
      var r := cats[i := Category(Named(name), cats[i].items + items)];
      assert r[i].title == Named(name);
      r
  }

  /** The first child carrying `name` is found wherever it stands. */
  lemma IndexOfFirst(cats: seq<Category>, name: CategoryName, k: nat)
    requires k <= |cats|
    requires k < |cats| ==> cats[k].title == Named(name)
    requires forall j :: 0 <= j < k ==> cats[j].title != Named(name)
    ensures IndexOf(cats, name) == k
  {
  }

  /** Stepping into an existing category appends to it in place and leaves the rest of the tree alone. */
  lemma PutExisting(before: seq<Category>, c: Category, after: seq<Category>,
                    name: CategoryName, items: seq<Item>)
    requires c.title == Named(name) && !Has(before, name)
    ensures Put(before + [c] + after, name, items)
            == before + [Category(Named(name), c.items + items)] + after
  {
    var cats := before + [c] + after;
    var k := |before|;
    var updated := Category(Named(name), c.items + items);
    assert cats[k] == c;
    forall j | 0 <= j < k ensures cats[j].title != Named(name) {
      assert cats[j] == before[j];
    }
    IndexOfFirst(cats, name, k);
    assert Put(cats, name, items) == cats[k := updated];
    assert cats[k := updated] == before + [updated] + after by {
      forall j | 0 <= j < |cats| ensures cats[k := updated][j] == (before + [updated] + after)[j] {
        if j < k {
          assert cats[j] == before[j];
        } else if j > k {
          assert cats[j] == after[j - k - 1];
        }
      }
    }
  }

  /** Two appends to the same category are one append of both lists. */
  lemma PutPut(cats: seq<Category>, name: CategoryName, x: seq<Item>, y: seq<Item>)
    ensures Put(Put(cats, name, x), name, y) == Put(cats, name, x + y)
  {
    var i := IndexOf(cats, name);
    var once := Put(cats, name, x);
    if i == |cats| {
      IndexOfFirst(once, name, |cats|);
    } else {
      IndexOfFirst(once, name, i);
      assert cats[i].items + x + y == cats[i].items + (x + y);
    }
  }

  /** Stepping into an existing category and adding nothing changes nothing. */
  lemma PutNothing(cats: seq<Category>, name: CategoryName)
    requires Has(cats, name)
    ensures Put(cats, name, []) == cats
  {
    var i := IndexOf(cats, name);
    assert cats[i].items + [] == cats[i].items;
  }

  /** stepIn never moves or renames a child: every existing child keeps its position and title. */
  lemma PutKeepsPositions(cats: seq<Category>, name: CategoryName, items: seq<Item>)
    ensures var r := Put(cats, name, items);
            |cats| <= |r| && forall j :: 0 <= j < |cats| ==> r[j].title == cats[j].title
  {
  }

  /** Appending to one category keeps every other category present. */
  lemma PutKeeps(cats: seq<Category>, name: CategoryName, items: seq<Item>, other: CategoryName)
    requires Has(cats, other)
    ensures Has(Put(cats, name, items), other)
  {
    var k :| 0 <= k < |cats| && cats[k].title == Named(other);
    var r := Put(cats, name, items);
    assert r[k].title == Named(other);
  }

  /** The root category's `items()`: its children, in order, as palette items. */
  function AsItems(cats: seq<Category>): seq<Item> {
    seq(|cats|, i requires 0 <= i < |cats| => Sub(cats[i]))
  }
}
