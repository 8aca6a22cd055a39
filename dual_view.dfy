/** The structure of the two synchronised views: the 3D spiral view (nodes, strands,
    base pairs, subprocess connections), the 2D bird's eye view (nodes, category clusters,
    flow arrows, legend) and the node mapping between them. Positions pass through
    unchanged; node sizes, cluster centres and camera settings are not modelled. */
module DualView {
  import opened Wrappers
  import opened Seqs
  import opened Strings
  import opened Dicts
  import opened Categorization

  /** An entry of `generate_spiral_coordinates`, with its coordinates. */
  datatype SpiralCoordinate = SpiralCoordinate(coords: seq<real>, strand: nat, base: string, complement: string, basePairId: string)

  // ---------------------------------------------------------------- node data

  /** Node i is named after the i-th key of the categorized map, or "P<i>" past its end. */
  function NodeId(categorized: Dict<string, ProcessEntry>, i: nat): string {
    if i < |categorized.keys| then categorized.keys[i] else "P" + NatToString(i)
  }

  /** `categorized_map.get(address, {})` */
  function DataOf(categorized: Dict<string, ProcessEntry>, address: string): Option<ProcessEntry> {
    if address in categorized.items then Some(categorized.items[address]) else None
  }

  function CategoryOfData(data: Option<ProcessEntry>): string {
    if data.Some? then data.value.category else "general"
  }

  function CommandOfData(data: Option<ProcessEntry>): string {
    if data.Some? then data.value.command else ""
  }

  function LinksOfData(data: Option<ProcessEntry>): seq<string> {
    if data.Some? then data.value.subprocesses else []
  }

  /** `_get_category_symbol`: a fixed table, '○' for anything else. */
  function CategorySymbol(category: string): string {
    if category == "data" then "◆"
    else if category == "computation" then "●"
    else if category == "io" then "▲"
    else if category == "control" then "■"
    else if category == "crypto" then "★"
    else if category == "network" then "◇"
    else if category == "ui" then "▼"
    else if category == "error" then "⚠"
    else "○"
  }

  /** Every category outside the eight named ones, 'general' included, gets the circle;
      the eight named ones get eight different symbols. */
  lemma {:induction false} CategorySymbolTable(c: string, d: string)
    ensures CategorySymbol(c) == "○" <==> c !in {"data", "computation", "io", "control", "crypto", "network", "ui", "error"}
    ensures CategorySymbol(c) == CategorySymbol(d) && CategorySymbol(c) != "○" ==> c == d
  {
  }

  // ---------------------------------------------------------------- the 3D view

  datatype Node3D = Node3D(
    id: string, position: seq<real>, strand: nat, base: string, complement: string,
    category: string, command: string, color: string, connections: seq<string>)

  datatype BasePair = BasePair(node1: string, node2: string, position1: seq<real>, position2: seq<real>, basePairId: string)

  /** A 'subprocess' connection. */
  datatype Connection = Connection(source: string, target: string)

  datatype SpiralView = SpiralView(
    totalNodes: nat,
    nodes: seq<Node3D>,
    connections: seq<Connection>,
    strand0: seq<Node3D>,
    strand1: seq<Node3D>,
    basePairs: seq<BasePair>)

  /** Node i of the 3D view; `color` is the legend's category colouring. */
  function Node3DAt(categorized: Dict<string, ProcessEntry>, coordinates: seq<SpiralCoordinate>, color: string -> string, i: nat): Node3D
    requires i < |coordinates|
  {
    var id := NodeId(categorized, i);
    var data := DataOf(categorized, id);
    Node3D(id, coordinates[i].coords, coordinates[i].strand, coordinates[i].base, coordinates[i].complement,
           CategoryOfData(data), CommandOfData(data), color(CategoryOfData(data)), LinksOfData(data))
  }

  /** The first k nodes of the 3D view. */
  function Nodes3DOf(categorized: Dict<string, ProcessEntry>, coordinates: seq<SpiralCoordinate>, color: string -> string, k: nat)
    : (r: seq<Node3D>)
    requires k <= |coordinates|
    ensures |r| == k && forall i :: 0 <= i < k ==> r[i] == Node3DAt(categorized, coordinates, color, i)
  {
    if k == 0 then [] else Nodes3DOf(categorized, coordinates, color, k - 1) + [Node3DAt(categorized, coordinates, color, k - 1)]
  }

  predicate OnStrand0(n: Node3D) { n.strand == 0 }
  predicate OnStrand1(n: Node3D) { n.strand == 1 }

  /** Base pair k joins nodes 2k and 2k+1; an odd last node stays unpaired. */
  function BasePairsOf(nodes: seq<Node3D>, coordinates: seq<SpiralCoordinate>): (r: seq<BasePair>)
    requires |nodes| == |coordinates|
    ensures |r| == |nodes| / 2
  {
    seq(|nodes| / 2, k requires 0 <= k < |nodes| / 2 =>
      BasePair(nodes[2 * k].id, nodes[2 * k + 1].id, coordinates[2 * k].coords, coordinates[2 * k + 1].coords,
               coordinates[2 * k].basePairId))
  }

  predicate HasId3D(nodes: seq<Node3D>, id: string) {
    exists j :: 0 <= j < |nodes| && nodes[j].id == id
  }

  /** The connections of one node: its subprocesses that are node ids, in order. */
  function NodeLinks(node: Node3D, links: seq<string>, nodes: seq<Node3D>): seq<Connection> {
    if links == [] then []
    else
      var last := links[|links| - 1];
      NodeLinks(node, links[..|links| - 1], nodes) + (if HasId3D(nodes, last) then [Connection(node.id, last)] else [])
  }

  /** The connections of the first k nodes. */
  function LinksUpTo(nodes: seq<Node3D>, k: nat): seq<Connection>
    requires k <= |nodes|
  {
    if k == 0 then [] else LinksUpTo(nodes, k - 1) + NodeLinks(nodes[k - 1], nodes[k - 1].connections, nodes)
  }

  /** A node's connections run from it to a known node, and every subprocess of it that
      is a node id gets one. */
  lemma {:induction false} NodeLinksMembers(node: Node3D, links: seq<string>, nodes: seq<Node3D>)
    ensures forall c :: c in NodeLinks(node, links, nodes) ==> c.source == node.id && c.target in links && HasId3D(nodes, c.target)
    ensures forall t :: t in links && HasId3D(nodes, t) ==> Connection(node.id, t) in NodeLinks(node, links, nodes)
  {
    if links != [] {
      var init := links[..|links| - 1];
      NodeLinksMembers(node, init, nodes);
      assert links == init + [links[|links| - 1]];
    }
  }

  /** Every connection of the 3D view joins two nodes: it starts at a node and ends at a
      node id; every subprocess that names a node yields a connection. */
  lemma {:induction false} LinksUpToMembers(nodes: seq<Node3D>, k: nat)
    requires k <= |nodes|
    ensures forall c :: c in LinksUpTo(nodes, k) ==> HasId3D(nodes, c.source) && HasId3D(nodes, c.target)
    ensures forall j, t :: 0 <= j < k && t in nodes[j].connections && HasId3D(nodes, t) ==>
      Connection(nodes[j].id, t) in LinksUpTo(nodes, k)
  {
    if k > 0 {
      LinksUpToMembers(nodes, k - 1);
      NodeLinksMembers(nodes[k - 1], nodes[k - 1].connections, nodes);
      forall c | c in NodeLinks(nodes[k - 1], nodes[k - 1].connections, nodes)
        ensures HasId3D(nodes, c.source)
      {
        assert nodes[k - 1].id == c.source;
      }
    }
  }

  /** The two strands split the nodes between them. */
  lemma {:induction false} StrandsPartition(nodes: seq<Node3D>)
    requires forall i :: 0 <= i < |nodes| ==> nodes[i].strand < 2
    ensures |Filter(nodes, OnStrand0)| + |Filter(nodes, OnStrand1)| == |nodes|
    ensures forall n :: n in nodes ==> (n in Filter(nodes, OnStrand0) <==> n !in Filter(nodes, OnStrand1))
  {
    FilterMembers(nodes, OnStrand0);
    FilterMembers(nodes, OnStrand1);
    if nodes != [] {
      StrandsPartition(nodes[1..]);
    }
  }

  /** Each node but an odd last one is in exactly the base pair k = i / 2. */
  lemma {:induction false} BasePairsCover(nodes: seq<Node3D>, coordinates: seq<SpiralCoordinate>, i: nat)
    requires |nodes| == |coordinates| && i < 2 * (|nodes| / 2)
    ensures i % 2 == 0 ==> BasePairsOf(nodes, coordinates)[i / 2].node1 == nodes[i].id
    ensures i % 2 == 1 ==> BasePairsOf(nodes, coordinates)[i / 2].node2 == nodes[i].id
  {
    assert i / 2 < |nodes| / 2;
    if i % 2 == 0 {
      assert 2 * (i / 2) == i;
    } else {
      assert 2 * (i / 2) + 1 == i;
    }
  }

  // ---------------------------------------------------------------- the 2D view

  datatype Node2D = Node2D(
    id: string, position2d: seq<real>, position3d: seq<real>, category: string, command: string,
    color: string, symbol: string, connections: seq<string>)

  /** A category cluster (its centre is not modelled). */
  datatype Cluster = Cluster(nodes: seq<string>, color: string, count: nat)

  datatype FlowArrow = FlowArrow(from: seq<real>, to: seq<real>, fromId: string, toId: string, category: string)

  datatype LegendEntry = LegendEntry(color: string, symbol: string, count: nat)

  datatype BirdsEyeView = BirdsEyeView(
    totalNodes: nat,
    nodes: seq<Node2D>,
    clusters: Dict<string, Cluster>,
    flowArrows: seq<FlowArrow>,
    legend: Dict<string, LegendEntry>)

  /** Node i of the 2D view; `project` is the bird's eye projection of a spiral entry. */
  function Node2DAt(categorized: Dict<string, ProcessEntry>, coordinates: seq<SpiralCoordinate>,
                    color: string -> string, project: SpiralCoordinate -> seq<real>, i: nat): Node2D
    requires i < |coordinates|
  {
    var id := NodeId(categorized, i);
    var data := DataOf(categorized, id);
    var category := CategoryOfData(data);
    Node2D(id, project(coordinates[i]), coordinates[i].coords, category, CommandOfData(data),
           color(category), CategorySymbol(category), LinksOfData(data))
  }

  /** The first k nodes of the 2D view. */
  function Nodes2DOf(categorized: Dict<string, ProcessEntry>, coordinates: seq<SpiralCoordinate>,
                     color: string -> string, project: SpiralCoordinate -> seq<real>, k: nat): (r: seq<Node2D>)
    requires k <= |coordinates|
    ensures |r| == k && forall i :: 0 <= i < k ==> r[i] == Node2DAt(categorized, coordinates, color, project, i)
  {
    if k == 0 then []
    else Nodes2DOf(categorized, coordinates, color, project, k - 1) + [Node2DAt(categorized, coordinates, color, project, k - 1)]
  }

  /** `category_positions`: the nodes of each category, categories in order of first
      appearance. */
  function CategoryPositions(nodes: seq<Node2D>): Dict<string, seq<Node2D>> {
    if nodes == [] then Empty()
    else
      var d := CategoryPositions(nodes[..|nodes| - 1]);
      var n := nodes[|nodes| - 1];
      d.Put(n.category, d.Get(n.category, []) + [n])
  }

  lemma {:induction false} CategoryPositionsStep(nodes: seq<Node2D>, n: Node2D)
    ensures CategoryPositions(nodes + [n])
         == CategoryPositions(nodes).Put(n.category, CategoryPositions(nodes).Get(n.category, []) + [n])
  {
    assert (nodes + [n])[..|nodes|] == nodes;
  }

  /** Giving a missing category an empty list and then appending is appending to the
      category's list, empty when missing. */
  lemma {:induction false} DefaultThenAppend(d: Dict<string, seq<Node2D>>, c: string, n: Node2D)
    ensures c !in d.items ==> d.Put(c, []).Put(c, d.Put(c, []).items[c] + [n]) == d.Put(c, d.Get(c, []) + [n])
    ensures c in d.items ==> d.Put(c, d.items[c] + [n]) == d.Put(c, d.Get(c, []) + [n])
  {
  }

  /** The nodes of category c, in order. */
  function InCategory(nodes: seq<Node2D>, c: string): seq<Node2D> {
    Filter(nodes, HasCategory(c))
  }

  function HasCategory(c: string): Node2D -> bool {
    (n: Node2D) => n.category == c
  }

  /** Each category seen is listed once, and holds exactly its nodes in order. */
  lemma {:induction false} CategoryPositionsContents(nodes: seq<Node2D>)
    ensures CategoryPositions(nodes).Valid()
    ensures forall c :: c in CategoryPositions(nodes).items <==> exists i :: 0 <= i < |nodes| && nodes[i].category == c
    ensures forall c :: c in CategoryPositions(nodes).items ==> CategoryPositions(nodes).items[c] == InCategory(nodes, c)
  {
    CategoryPositionsKeys(nodes);
    CategoryPositionsGroups(nodes);
  }

  lemma {:induction false} CategoryPositionsKeys(nodes: seq<Node2D>)
    ensures CategoryPositions(nodes).Valid()
    ensures forall c :: c in CategoryPositions(nodes).items <==> exists i :: 0 <= i < |nodes| && nodes[i].category == c
  {
    if nodes != [] {
      var init := nodes[..|nodes| - 1];
      var d := CategoryPositions(init);
      CategoryPositionsKeys(init);
      CategoryPositionsLast(nodes, d);
      CategoriesStep(init, nodes[|nodes| - 1], nodes, d.items.Keys, CategoryPositions(nodes).items.Keys);
    }
  }

  /** The last node's category joins the categories seen before it. */
  lemma {:induction false} CategoryPositionsLast(nodes: seq<Node2D>, d: Dict<string, seq<Node2D>>)
    requires nodes != [] && d == CategoryPositions(nodes[..|nodes| - 1]) && d.Valid()
    ensures CategoryPositions(nodes).Valid()
    ensures CategoryPositions(nodes).items.Keys == d.items.Keys + {nodes[|nodes| - 1].category}
  {
    var n := nodes[|nodes| - 1];
    PutValid(d, n.category, d.Get(n.category, []) + [n]);
  }

  /** The categories of `init + [x]` are those of `init` and the category of `x`. */
  lemma {:induction false} CategoriesStep(init: seq<Node2D>, x: Node2D, nodes: seq<Node2D>, before: set<string>, after: set<string>)
    requires nodes == init + [x]
    requires forall c :: c in before <==> exists i :: 0 <= i < |init| && init[i].category == c
    requires after == before + {x.category}
    ensures forall c :: c in after <==> exists i :: 0 <= i < |nodes| && nodes[i].category == c
  {
    forall c
      ensures c in after <==> exists i :: 0 <= i < |nodes| && nodes[i].category == c
    {
      if c == x.category {
        assert nodes[|init|].category == c;
      } else if c in before {
        var i :| 0 <= i < |init| && init[i].category == c;
        assert nodes[i].category == c;
      } else {
        forall i | 0 <= i < |nodes|
          ensures nodes[i].category != c
        {
          if i < |init| { assert init[i] == nodes[i]; }
        }
      }
    }
  }

  lemma {:induction false} CategoryPositionsGroups(nodes: seq<Node2D>)
    ensures forall c :: c in CategoryPositions(nodes).items ==> CategoryPositions(nodes).items[c] == InCategory(nodes, c)
  {
    if nodes != [] {
      var init := nodes[..|nodes| - 1];
      var n := nodes[|nodes| - 1];
      var d := CategoryPositions(init);
      CategoryPositionsGroups(init);
      forall c | c in CategoryPositions(nodes).items
        ensures CategoryPositions(nodes).items[c] == InCategory(nodes, c)
      {
        FilterLast(nodes, HasCategory(c));
        if c != n.category {
          assert c in d.items;
        } else if c !in d.items {
          CategoryPositionsKeys(init);
          forall x | x in init
            ensures !HasCategory(c)(x)
          {
            var i :| 0 <= i < |init| && init[i] == x;
          }
          FilterNone(init, HasCategory(c));
        }
      }
    }
  }

  /** The sum of the list lengths over a key list. */
  function SumLengths(keys: seq<string>, items: map<string, seq<Node2D>>): nat {
    if keys == [] then 0
    else SumLengths(keys[..|keys| - 1], items) + (if keys[|keys| - 1] in items then |items[keys[|keys| - 1]]| else 0)
  }

  lemma {:induction false} SumLengthsUnchanged(keys: seq<string>, items: map<string, seq<Node2D>>, k: string, v: seq<Node2D>)
    requires k !in keys
    ensures SumLengths(keys, items[k := v]) == SumLengths(keys, items)
  {
    if keys != [] {
      SumLengthsUnchanged(keys[..|keys| - 1], items, k, v);
    }
  }

  lemma {:induction false} SumLengthsUpdate(keys: seq<string>, items: map<string, seq<Node2D>>, k: string, v: seq<Node2D>)
    requires Distinct(keys) && k in keys && k in items
    ensures SumLengths(keys, items[k := v]) + |items[k]| == SumLengths(keys, items) + |v|
  {
    var init := keys[..|keys| - 1];
    DistinctLast(keys);
    if keys[|keys| - 1] == k {
      SumLengthsUnchanged(init, items, k, v);
    } else {
      assert k in init;
      SumLengthsUpdate(init, items, k, v);
    }
  }

  /** The lists of `category_positions` hold the nodes between them. */
  lemma {:induction false} CategoryPositionsTotal(nodes: seq<Node2D>)
    ensures SumLengths(CategoryPositions(nodes).keys, CategoryPositions(nodes).items) == |nodes|
  {
    if nodes != [] {
      var init := nodes[..|nodes| - 1];
      var n := nodes[|nodes| - 1];
      var d := CategoryPositions(init);
      CategoryPositionsTotal(init);
      CategoryPositionsContents(init);
      var v := d.Get(n.category, []) + [n];
      if n.category in d.items {
        SumLengthsUpdate(d.keys, d.items, n.category, v);
      } else {
        SumLengthsUnchanged(d.keys, d.items, n.category, v);
      }
    }
  }

  function IdOf2D(n: Node2D): string { n.id }

  /** `clusters`: one per category with more than one node, in category order. */
  function ClustersOf(keys: seq<string>, positions: map<string, seq<Node2D>>, color: string -> string): Dict<string, Cluster>
    requires forall k :: k in keys ==> k in positions
  {
    if keys == [] then Empty()
    else
      var d := ClustersOf(keys[..|keys| - 1], positions, color);
      var c := keys[|keys| - 1];
      if |positions[c]| > 1 then d.Put(c, Cluster(Map(positions[c], IdOf2D), color(c), |positions[c]|)) else d
  }

  /** A category has a cluster exactly when it has more than one node, and the cluster
      counts and names those nodes. */
  lemma {:induction false} ClustersOfContents(keys: seq<string>, positions: map<string, seq<Node2D>>, color: string -> string)
    requires forall k :: k in keys ==> k in positions
    ensures forall c :: c in ClustersOf(keys, positions, color).items <==> c in keys && |positions[c]| > 1
    ensures forall c :: c in ClustersOf(keys, positions, color).items ==>
      ClustersOf(keys, positions, color).items[c] == Cluster(Map(positions[c], IdOf2D), color(c), |positions[c]|)
  {
    if keys != [] {
      ClustersOfContents(keys[..|keys| - 1], positions, color);
      assert keys == keys[..|keys| - 1] + [keys[|keys| - 1]];
    }
  }

  /** The legend entry of one category: its colour, its symbol and its node count. */
  function LegendEntryOf(c: string, members: seq<Node2D>, color: string -> string): LegendEntry {
    LegendEntry(color(c), CategorySymbol(c), |members|)
  }

  /** The legend: one entry per category, with its node count. */
  function LegendOf(keys: seq<string>, positions: map<string, seq<Node2D>>, color: string -> string): Dict<string, LegendEntry>
    requires forall k :: k in keys ==> k in positions
  {
    if keys == [] then Empty()
    else
      var c := keys[|keys| - 1];
      LegendOf(keys[..|keys| - 1], positions, color).Put(c, LegendEntryOf(c, positions[c], color))
  }

  /** The legend counts summed over its categories. */
  function LegendTotal(keys: seq<string>, legend: map<string, LegendEntry>): nat {
    if keys == [] then 0
    else LegendTotal(keys[..|keys| - 1], legend) + (if keys[|keys| - 1] in legend then legend[keys[|keys| - 1]].count else 0)
  }

  /** Over distinct keys the legend lists the keys in order with their counts. */
  lemma {:induction false} LegendOfContents(keys: seq<string>, positions: map<string, seq<Node2D>>, color: string -> string)
    requires Distinct(keys) && forall k :: k in keys ==> k in positions
    ensures LegendOf(keys, positions, color).keys == keys
    ensures forall c :: c in LegendOf(keys, positions, color).items <==> c in keys
    ensures forall c :: c in keys ==> LegendOf(keys, positions, color).items[c].count == |positions[c]|
  {
    if keys != [] {
      var init := keys[..|keys| - 1];
      DistinctLast(keys);
      LegendOfContents(init, positions, color);
      assert keys == init + [keys[|keys| - 1]];
    }
  }

  lemma {:induction false} LegendTotalIsSum(keys: seq<string>, legend: map<string, LegendEntry>, positions: map<string, seq<Node2D>>)
    requires forall c :: c in keys ==> c in legend && c in positions && legend[c].count == |positions[c]|
    ensures LegendTotal(keys, legend) == SumLengths(keys, positions)
  {
    if keys != [] {
      LegendTotalIsSum(keys[..|keys| - 1], legend, positions);
    }
  }

  /** The legend built from the nodes' categories. */
  function LegendFor(nodes: seq<Node2D>, color: string -> string): Dict<string, LegendEntry> {
    CategoryPositionsContents(nodes);
    LegendOf(CategoryPositions(nodes).keys, CategoryPositions(nodes).items, color)
  }

  /** The legend counts add up to the number of 2D nodes. */
  lemma {:induction false} LegendCountsTotal(nodes: seq<Node2D>, color: string -> string)
    ensures LegendTotal(LegendFor(nodes, color).keys, LegendFor(nodes, color).items) == |nodes|
  {
    var p := CategoryPositions(nodes);
    CategoryPositionsContents(nodes);
    LegendOfContents(p.keys, p.items, color);
    var legend := LegendOf(p.keys, p.items, color);
    LegendTotalIsSum(p.keys, legend.items, p.items);
    CategoryPositionsTotal(nodes);
  }

  /** `next((n for n in nodes if n['id'] == id), None)` */
  function FirstWithId(nodes: seq<Node2D>, id: string): (r: Option<Node2D>)
    ensures r.Some? ==> r.value in nodes && r.value.id == id
    ensures r.None? <==> forall j :: 0 <= j < |nodes| ==> nodes[j].id != id
  {
    match FirstIndex(nodes, WithId2D(id))
    case None => None
    case Some(i) => Some(nodes[i])
  }

  /** The node found is the first one carrying the id. */
  lemma {:induction false} FirstWithIdIsFirst(nodes: seq<Node2D>, id: string)
    requires FirstWithId(nodes, id).Some?
    ensures exists i :: 0 <= i < |nodes| && nodes[i] == FirstWithId(nodes, id).value && (forall j :: 0 <= j < i ==> nodes[j].id != id)
  {
    var i := FirstIndex(nodes, WithId2D(id)).value;
    assert nodes[i] == FirstWithId(nodes, id).value;
  }

  function WithId2D(id: string): Node2D -> bool {
    (n: Node2D) => n.id == id
  }

  /** The arrows from one node: one per subprocess that names a node, to the first
      node with that id. */
  function NodeArrows(node: Node2D, links: seq<string>, nodes: seq<Node2D>): seq<FlowArrow> {
    if links == [] then []
    else
      var init := NodeArrows(node, links[..|links| - 1], nodes);
      match FirstWithId(nodes, links[|links| - 1])
      case Some(t) => init + [FlowArrow(node.position2d, t.position2d, node.id, t.id, node.category)]
      case None => init
  }

  function ArrowsUpTo(nodes: seq<Node2D>, k: nat): seq<FlowArrow>
    requires k <= |nodes|
  {
    if k == 0 then [] else ArrowsUpTo(nodes, k - 1) + NodeArrows(nodes[k - 1], nodes[k - 1].connections, nodes)
  }

  /** An arrow runs from its node to the first node named by one of its subprocesses;
      subprocesses naming no node give no arrow. */
  lemma {:induction false} NodeArrowsMembers(node: Node2D, links: seq<string>, nodes: seq<Node2D>)
    ensures |NodeArrows(node, links, nodes)| <= |links|
    ensures forall a :: a in NodeArrows(node, links, nodes) ==>
      a.fromId == node.id && a.toId in links && FirstWithId(nodes, a.toId).Some? &&
      a.to == FirstWithId(nodes, a.toId).value.position2d
    ensures forall t :: t in links && FirstWithId(nodes, t).Some? ==>
      exists a :: a in NodeArrows(node, links, nodes) && a.toId == t
  {
    if links != [] {
      var init := links[..|links| - 1];
      NodeArrowsMembers(node, init, nodes);
      assert links == init + [links[|links| - 1]];
    }
  }

  /** Every arrow of the 2D view joins two nodes: it starts at one of the first k nodes and
      ends at a node id, so subprocesses naming no node are dropped; every subprocess of
      those nodes that names a node yields an arrow. */
  lemma {:induction false} ArrowsUpToMembers(nodes: seq<Node2D>, k: nat)
    requires k <= |nodes|
    ensures forall a :: a in ArrowsUpTo(nodes, k) ==>
      (exists j :: 0 <= j < k && nodes[j].id == a.fromId) && FirstWithId(nodes, a.toId).Some?
    ensures forall j, t :: 0 <= j < k && t in nodes[j].connections && FirstWithId(nodes, t).Some? ==>
      exists a :: a in ArrowsUpTo(nodes, k) && a.fromId == nodes[j].id && a.toId == t
  {
    ArrowsUpToEnds(nodes, k);
    ArrowsUpToComplete(nodes, k);
  }

  lemma {:induction false} ArrowsUpToEnds(nodes: seq<Node2D>, k: nat)
    requires k <= |nodes|
    ensures forall a :: a in ArrowsUpTo(nodes, k) ==>
      (exists j :: 0 <= j < k && nodes[j].id == a.fromId) && FirstWithId(nodes, a.toId).Some?
  {
    if k > 0 {
      var before := ArrowsUpTo(nodes, k - 1);
      var last := NodeArrows(nodes[k - 1], nodes[k - 1].connections, nodes);
      ArrowsUpToEnds(nodes, k - 1);
      NodeArrowsMembers(nodes[k - 1], nodes[k - 1].connections, nodes);
      assert ArrowsUpTo(nodes, k) == before + last;
      forall a: FlowArrow | a in before + last
        ensures (exists j :: 0 <= j < k && nodes[j].id == a.fromId) && FirstWithId(nodes, a.toId).Some?
      {
        if a !in before {
          assert nodes[k - 1].id == a.fromId;
        }
      }
    }
  }

  lemma {:induction false} ArrowsUpToComplete(nodes: seq<Node2D>, k: nat)
    requires k <= |nodes|
    ensures forall j, t :: 0 <= j < k && t in nodes[j].connections && FirstWithId(nodes, t).Some? ==>
      exists a :: a in ArrowsUpTo(nodes, k) && a.fromId == nodes[j].id && a.toId == t
  {
    forall j, t | 0 <= j < k && t in nodes[j].connections && FirstWithId(nodes, t).Some?
      ensures exists a :: a in ArrowsUpTo(nodes, k) && a.fromId == nodes[j].id && a.toId == t
    {
      ArrowForLink(nodes, k, j, t);
    }
  }

  /** A link of node j that names a node has its arrow among the arrows of the first k
      nodes, for every k past j. */
  lemma {:induction false} ArrowForLink(nodes: seq<Node2D>, k: nat, j: nat, t: string)
    requires j < k <= |nodes| && t in nodes[j].connections && FirstWithId(nodes, t).Some?
    ensures exists a :: a in ArrowsUpTo(nodes, k) && a.fromId == nodes[j].id && a.toId == t
  {
    var last := NodeArrows(nodes[j], nodes[j].connections, nodes);
    LinkArrow(nodes[j], nodes[j].connections, nodes, t);
    var a: FlowArrow :| a in last && a.fromId == nodes[j].id && a.toId == t;
    assert ArrowsUpTo(nodes, j + 1) == ArrowsUpTo(nodes, j) + last;
    ArrowsUpToGrows(nodes, j + 1, k, a);
  }

  /** The arrows of the first j nodes stay among those of the first k nodes, k >= j. */
  lemma {:induction false} ArrowsUpToGrows(nodes: seq<Node2D>, j: nat, k: nat, a: FlowArrow)
    requires j <= k <= |nodes| && a in ArrowsUpTo(nodes, j)
    ensures a in ArrowsUpTo(nodes, k)
  {
    if j < k {
      ArrowsUpToGrows(nodes, j, k - 1, a);
      assert ArrowsUpTo(nodes, k) == ArrowsUpTo(nodes, k - 1) + NodeArrows(nodes[k - 1], nodes[k - 1].connections, nodes);
    }
  }

  /** A link of a node that names a node gives that node an arrow to it. */
  lemma {:induction false} LinkArrow(node: Node2D, links: seq<string>, nodes: seq<Node2D>, t: string)
    requires t in links && FirstWithId(nodes, t).Some?
    ensures exists a :: a in NodeArrows(node, links, nodes) && a.fromId == node.id && a.toId == t
  {
    NodeArrowsMembers(node, links, nodes);
    var a: FlowArrow :| a in NodeArrows(node, links, nodes) && a.toId == t;
    assert a.fromId == node.id;
  }

  // ---------------------------------------------------------------- synchronisation

  datatype NodeMapping = NodeMapping(position3d: seq<real>, position2d: seq<real>, category: string)

  datatype Animation = Animation(start: seq<real>, end: seq<real>, duration: nat)

  datatype Transition = Transition(from3dTo2d: Animation, from2dTo3d: Animation)

  datatype Synchronization = Synchronization(nodeMapping: Dict<string, NodeMapping>, viewTransitions: Dict<string, Transition>)

  datatype SynchronizedViews = SynchronizedViews(spiral3d: SpiralView, birdsEye2d: BirdsEyeView, synchronization: Synchronization)

  /** `node_mapping` after the first k 3D nodes. */
  function MappingUpTo(nodes3d: seq<Node3D>, nodes2d: seq<Node2D>, k: nat): Dict<string, NodeMapping>
    requires k <= |nodes3d|
  {
    if k == 0 then Empty()
    else
      var d := MappingUpTo(nodes3d, nodes2d, k - 1);
      var n := nodes3d[k - 1];
      match FirstWithId(nodes2d, n.id)
      case Some(m) => d.Put(n.id, NodeMapping(n.position, m.position2d, n.category))
      case None => d
  }

  /** The node mapping covers exactly the 3D node ids that have a 2D node. */
  lemma {:induction false} MappingUpToKeys(nodes3d: seq<Node3D>, nodes2d: seq<Node2D>, k: nat)
    requires k <= |nodes3d|
    ensures MappingUpTo(nodes3d, nodes2d, k).Valid()
    ensures forall id :: id in MappingUpTo(nodes3d, nodes2d, k).items <==>
      exists j :: 0 <= j < k && nodes3d[j].id == id && FirstWithId(nodes2d, id).Some?
  {
    if k > 0 {
      var d := MappingUpTo(nodes3d, nodes2d, k - 1);
      MappingUpToKeys(nodes3d, nodes2d, k - 1);
      MappingUpToStep(nodes3d, nodes2d, k);
      MappedIdsStep(nodes3d, nodes2d, k, d.items.Keys, MappingUpTo(nodes3d, nodes2d, k).items.Keys);
    }
  }

  /** The ids mapped after node k-1: those mapped before, and node k-1's id when a 2D node has it. */
  lemma {:induction false} MappedIdsStep(nodes3d: seq<Node3D>, nodes2d: seq<Node2D>, k: nat, before: set<string>, after: set<string>)
    requires 0 < k <= |nodes3d|
    requires forall id :: id in before <==> exists j :: 0 <= j < k - 1 && nodes3d[j].id == id && FirstWithId(nodes2d, id).Some?
    requires after == before + (if FirstWithId(nodes2d, nodes3d[k - 1].id).Some? then {nodes3d[k - 1].id} else {})
    ensures forall id :: id in after <==> exists j :: 0 <= j < k && nodes3d[j].id == id && FirstWithId(nodes2d, id).Some?
  {
    forall id
      ensures id in after <==> exists j :: 0 <= j < k && nodes3d[j].id == id && FirstWithId(nodes2d, id).Some?
    {
      if id in before {
        var j :| 0 <= j < k - 1 && nodes3d[j].id == id && FirstWithId(nodes2d, id).Some?;
        assert 0 <= j < k;
      } else if id in after {
        assert nodes3d[k - 1].id == id;
      } else {
        forall j | 0 <= j < k && nodes3d[j].id == id
          ensures FirstWithId(nodes2d, id).None?
        {
          if j < k - 1 {
            assert !(0 <= j < k - 1 && nodes3d[j].id == id && FirstWithId(nodes2d, id).Some?);
          }
        }
      }
    }
  }

  /** Node k-1 adds its id to the mapping exactly when a 2D node carries that id. */
  lemma {:induction false} MappingUpToStep(nodes3d: seq<Node3D>, nodes2d: seq<Node2D>, k: nat)
    requires 0 < k <= |nodes3d| && MappingUpTo(nodes3d, nodes2d, k - 1).Valid()
    ensures MappingUpTo(nodes3d, nodes2d, k).Valid()
    ensures MappingUpTo(nodes3d, nodes2d, k).items.Keys == MappingUpTo(nodes3d, nodes2d, k - 1).items.Keys +
      (if FirstWithId(nodes2d, nodes3d[k - 1].id).Some? then {nodes3d[k - 1].id} else {})
  {
    var d := MappingUpTo(nodes3d, nodes2d, k - 1);
    var n := nodes3d[k - 1];
    match FirstWithId(nodes2d, n.id)
    case Some(m) => PutValid(d, n.id, NodeMapping(n.position, m.position2d, n.category));
    case None =>
  }

  /** The animations of a node: 3D position to the 2D position lifted to z = 0 and back,
      1000 ms each way. */
  function TransitionOf(m: NodeMapping): Transition {
    Transition(Animation(m.position3d, m.position2d + [0.0], 1000), Animation(m.position2d + [0.0], m.position3d, 1000))
  }

  /** `view_transitions`: one per mapped node, in mapping order. */
  function TransitionsOf(keys: seq<string>, mapping: map<string, NodeMapping>): Dict<string, Transition>
    requires forall k :: k in keys ==> k in mapping
  {
    if keys == [] then Empty()
    else
      var k := keys[|keys| - 1];
      TransitionsOf(keys[..|keys| - 1], mapping).Put(k, TransitionOf(mapping[k]))
  }

  /** Every mapped node gets a transition of 1000 ms each way, and nothing else does. */
  lemma {:induction false} TransitionsOfContents(keys: seq<string>, mapping: map<string, NodeMapping>)
    requires forall k :: k in keys ==> k in mapping
    ensures forall k :: k in TransitionsOf(keys, mapping).items <==> k in keys
    ensures forall k :: k in keys ==>
      TransitionsOf(keys, mapping).items[k].from3dTo2d.duration == 1000 &&
      TransitionsOf(keys, mapping).items[k].from2dTo3d.duration == 1000 &&
      TransitionsOf(keys, mapping).items[k].from3dTo2d.start == mapping[k].position3d &&
      TransitionsOf(keys, mapping).items[k].from2dTo3d.end == mapping[k].position3d
  {
    if keys != [] {
      TransitionsOfContents(keys[..|keys| - 1], mapping);
      assert keys == keys[..|keys| - 1] + [keys[|keys| - 1]];
    }
  }

  /** Both views name node i alike, so every 3D node has its 2D partner and the node
      mapping covers every 3D node id. */
  lemma {:induction false} EveryNodeMapped(categorized: Dict<string, ProcessEntry>, coordinates: seq<SpiralCoordinate>,
                        color: string -> string, project: SpiralCoordinate -> seq<real>)
    ensures var nodes3d := Nodes3DOf(categorized, coordinates, color, |coordinates|);
      var nodes2d := Nodes2DOf(categorized, coordinates, color, project, |coordinates|);
      forall i :: 0 <= i < |coordinates| ==> nodes3d[i].id in MappingUpTo(nodes3d, nodes2d, |coordinates|).items
  {
    var nodes3d := Nodes3DOf(categorized, coordinates, color, |coordinates|);
    var nodes2d := Nodes2DOf(categorized, coordinates, color, project, |coordinates|);
    MappingUpToKeys(nodes3d, nodes2d, |coordinates|);
    forall i | 0 <= i < |coordinates|
      ensures nodes3d[i].id in MappingUpTo(nodes3d, nodes2d, |coordinates|).items
    {
      assert nodes2d[i].id == nodes3d[i].id;
    }
  }

  // ---------------------------------------------------------------- the generator

  /** `generate_3d_spiral_view` */
  method Generate3DSpiralView(categorized: Dict<string, ProcessEntry>, coordinates: seq<SpiralCoordinate>, color: string -> string)
    returns (view: SpiralView)
    requires forall i :: 0 <= i < |coordinates| ==> coordinates[i].strand < 2
    ensures view.totalNodes == |coordinates|
    ensures view.nodes == Nodes3DOf(categorized, coordinates, color, |coordinates|)
    ensures view.strand0 == Filter(view.nodes, OnStrand0) && view.strand1 == Filter(view.nodes, OnStrand1)
    ensures view.basePairs == BasePairsOf(view.nodes, coordinates)
    ensures view.connections == LinksUpTo(view.nodes, |view.nodes|)
  {
    var nodes, strand0, strand1 := Nodes3D(categorized, coordinates, color);
    var basePairs := PairBases(nodes, coordinates);
    var connections := LinkSubprocesses(nodes);
    view := SpiralView(|coordinates|, nodes, connections, strand0, strand1, basePairs);
  }

  /** The node loop of `generate_3d_spiral_view`: one node per entry, each also put on
      its strand. */
  method Nodes3D(categorized: Dict<string, ProcessEntry>, coordinates: seq<SpiralCoordinate>, color: string -> string)
    returns (nodes: seq<Node3D>, strand0: seq<Node3D>, strand1: seq<Node3D>)
    requires forall i :: 0 <= i < |coordinates| ==> coordinates[i].strand < 2
    ensures nodes == Nodes3DOf(categorized, coordinates, color, |coordinates|)
    ensures strand0 == Filter(nodes, OnStrand0) && strand1 == Filter(nodes, OnStrand1)
  {
    nodes, strand0, strand1 := [], [], [];
    var i := 0;
    while i < |coordinates|
      invariant 0 <= i <= |coordinates|
      invariant nodes == Nodes3DOf(categorized, coordinates, color, i)
      invariant strand0 == Filter(nodes, OnStrand0) && strand1 == Filter(nodes, OnStrand1)
    {
      var node := Node3DAt(categorized, coordinates, color, i);
      FilterLast(nodes + [node], OnStrand0);
      FilterLast(nodes + [node], OnStrand1);
      assert (nodes + [node])[..|nodes|] == nodes;
      nodes := nodes + [node];
      if node.strand == 0 {
        strand0 := strand0 + [node];
      } else {
        strand1 := strand1 + [node];
      }
      i := i + 1;
    }
  }

  /** The base pair loop of `generate_3d_spiral_view`. */
  method PairBases(nodes: seq<Node3D>, coordinates: seq<SpiralCoordinate>) returns (basePairs: seq<BasePair>)
    requires |nodes| == |coordinates|
    ensures basePairs == BasePairsOf(nodes, coordinates)
  {
    basePairs := [];
    var i := 0;
    while i < |coordinates| - 1
      invariant 0 <= i && i % 2 == 0 && i / 2 <= |nodes| / 2
      invariant basePairs == BasePairsOf(nodes, coordinates)[..i / 2]
    {
      if i + 1 < |coordinates| {
        basePairs := basePairs + [BasePair(nodes[i].id, nodes[i + 1].id, coordinates[i].coords,
                                           coordinates[i + 1].coords, coordinates[i].basePairId)];
      }
      i := i + 2;
    }
    assert i / 2 == |nodes| / 2;
  }

  /** The connection loop of `generate_3d_spiral_view`. */
  method LinkSubprocesses(nodes: seq<Node3D>) returns (connections: seq<Connection>)
    ensures connections == LinksUpTo(nodes, |nodes|)
  {
    connections := [];
    var k := 0;
    while k < |nodes|
      invariant 0 <= k <= |nodes|
      invariant connections == LinksUpTo(nodes, k)
    {
      var node := nodes[k];
      var j := 0;
      while j < |node.connections|
        invariant 0 <= j <= |node.connections|
        invariant connections == LinksUpTo(nodes, k) + NodeLinks(node, node.connections[..j], nodes)
      {
        var target := node.connections[j];
        assert node.connections[..j + 1][..j] == node.connections[..j];
        if exists m :: 0 <= m < |nodes| && nodes[m].id == target {
          connections := connections + [Connection(node.id, target)];
        }
        j := j + 1;
      }
      assert node.connections[..j] == node.connections;
      k := k + 1;
    }
  }

  /** `generate_2d_birds_eye_view` */
  method Generate2DBirdsEyeView(categorized: Dict<string, ProcessEntry>, coordinates: seq<SpiralCoordinate>,
                                color: string -> string, project: SpiralCoordinate -> seq<real>)
    returns (view: BirdsEyeView)
    ensures view.totalNodes == |coordinates|
    ensures view.nodes == Nodes2DOf(categorized, coordinates, color, project, |coordinates|)
    ensures CategoryPositions(view.nodes).Valid()
    ensures view.clusters == ClustersOf(CategoryPositions(view.nodes).keys, CategoryPositions(view.nodes).items, color)
    ensures view.flowArrows == ArrowsUpTo(view.nodes, |view.nodes|)
    ensures view.legend == LegendOf(CategoryPositions(view.nodes).keys, CategoryPositions(view.nodes).items, color)
  {
    var nodes, positions := Nodes2D(categorized, coordinates, color, project);
    CategoryPositionsContents(nodes);
    var clusters := Cluster2D(positions, color);
    var arrows := FlowArrows(nodes);
    var legend := Legend2D(positions, color);
    view := BirdsEyeView(|coordinates|, nodes, clusters, arrows, legend);
  }

  /** The node loop of `generate_2d_birds_eye_view`, gathering `category_positions`. */
  method Nodes2D(categorized: Dict<string, ProcessEntry>, coordinates: seq<SpiralCoordinate>,
                 color: string -> string, project: SpiralCoordinate -> seq<real>)
    returns (nodes: seq<Node2D>, positions: Dict<string, seq<Node2D>>)
    ensures nodes == Nodes2DOf(categorized, coordinates, color, project, |coordinates|)
    ensures positions == CategoryPositions(nodes)
  {
    nodes := [];
    positions := Empty();
    var i := 0;
    while i < |coordinates|
      invariant 0 <= i <= |coordinates|
      invariant nodes == Nodes2DOf(categorized, coordinates, color, project, i)
      invariant positions == CategoryPositions(nodes)
    {
      nodes, positions := Node2DStep(categorized, coordinates, color, project, i, nodes, positions);
      i := i + 1;
    }
  }

  /** One pass of the node loop of `generate_2d_birds_eye_view`: build the i-th node,
      append it, and file it under its category (`if category not in
      category_positions: category_positions[category] = []`, then `append`). */
  method Node2DStep(categorized: Dict<string, ProcessEntry>, coordinates: seq<SpiralCoordinate>,
                    color: string -> string, project: SpiralCoordinate -> seq<real>, i: nat,
                    nodes: seq<Node2D>, positions: Dict<string, seq<Node2D>>)
    returns (nodes': seq<Node2D>, positions': Dict<string, seq<Node2D>>)
    requires i < |coordinates|
    requires nodes == Nodes2DOf(categorized, coordinates, color, project, i)
    requires positions == CategoryPositions(nodes)
    ensures nodes' == Nodes2DOf(categorized, coordinates, color, project, i + 1)
    ensures positions' == CategoryPositions(nodes')
  {
    var node := Node2DAt(categorized, coordinates, color, project, i);
    var category := node.category;
    CategoryPositionsStep(nodes, node);
    DefaultThenAppend(positions, category, node);
    nodes' := nodes + [node];
    positions' := positions;
    if category !in positions'.items {
      positions' := positions'.Put(category, []);
    }
    positions' := positions'.Put(category, positions'.items[category] + [node]);
  }

  /** The cluster loop of `generate_2d_birds_eye_view`. */
  method Cluster2D(positions: Dict<string, seq<Node2D>>, color: string -> string) returns (clusters: Dict<string, Cluster>)
    requires positions.Valid()
    ensures clusters == ClustersOf(positions.keys, positions.items, color)
  {
    clusters := Empty();
    var i := 0;
    while i < |positions.keys|
      invariant 0 <= i <= |positions.keys|
      invariant clusters == ClustersOf(positions.keys[..i], positions.items, color)
    {
      var category := positions.keys[i];
      var members := positions.items[category];
      assert positions.keys[..i + 1][..i] == positions.keys[..i];
      if |members| > 1 {
        clusters := clusters.Put(category, Cluster(Map(members, IdOf2D), color(category), |members|));
      }
      i := i + 1;
    }
    assert positions.keys[..i] == positions.keys;
  }

  /** The flow arrow loop of `generate_2d_birds_eye_view`. */
  method FlowArrows(nodes: seq<Node2D>) returns (arrows: seq<FlowArrow>)
    ensures arrows == ArrowsUpTo(nodes, |nodes|)
  {
    arrows := [];
    var k := 0;
    while k < |nodes|
      invariant 0 <= k <= |nodes|
      invariant arrows == ArrowsUpTo(nodes, k)
    {
      var fromNode := ArrowsFrom(nodes[k], nodes);
      assert ArrowsUpTo(nodes, k + 1) == ArrowsUpTo(nodes, k) + fromNode;
      arrows := arrows + fromNode;
      k := k + 1;
    }
  }

  /** The inner loop of the flow arrows: the arrows from one node, over its subprocesses. */
  method ArrowsFrom(node: Node2D, nodes: seq<Node2D>) returns (arrows: seq<FlowArrow>)
    ensures arrows == NodeArrows(node, node.connections, nodes)
  {
    arrows := [];
    var j := 0;
    while j < |node.connections|
      invariant 0 <= j <= |node.connections|
      invariant arrows == NodeArrows(node, node.connections[..j], nodes)
    {
      arrows := ArrowTo(node, nodes, j, arrows);
      j := j + 1;
    }
    assert node.connections[..j] == node.connections;
  }

  /** One iteration of the inner loop: an arrow to the node named by subprocess j, if any. */
  method ArrowTo(node: Node2D, nodes: seq<Node2D>, j: nat, arrows: seq<FlowArrow>) returns (arrows': seq<FlowArrow>)
    requires j < |node.connections| && arrows == NodeArrows(node, node.connections[..j], nodes)
    ensures arrows' == NodeArrows(node, node.connections[..j + 1], nodes)
  {
    assert node.connections[..j + 1][..j] == node.connections[..j];
    var target := FirstWithId(nodes, node.connections[j]);
    arrows' := arrows;
    if target.Some? {
      arrows' := arrows + [FlowArrow(node.position2d, target.value.position2d, node.id, target.value.id, node.category)];
    }
  }

  /** The legend loop of `generate_2d_birds_eye_view`. */
  method Legend2D(positions: Dict<string, seq<Node2D>>, color: string -> string) returns (legend: Dict<string, LegendEntry>)
    requires positions.Valid()
    ensures legend == LegendOf(positions.keys, positions.items, color)
  {
    legend := Empty();
    var i := 0;
    while i < |positions.keys|
      invariant 0 <= i <= |positions.keys|
      invariant legend == LegendOf(positions.keys[..i], positions.items, color)
    {
      var category := positions.keys[i];
      var members := positions.items[category];
      assert positions.keys[..i + 1][..i] == positions.keys[..i];
      legend := legend.Put(category, LegendEntryOf(category, members, color));
      i := i + 1;
    }
    assert positions.keys[..i] == positions.keys;
  }

  /** `generate_synchronized_views` */
  method GenerateSynchronizedViews(categorized: Dict<string, ProcessEntry>, coordinates: seq<SpiralCoordinate>,
                                   color: string -> string, project: SpiralCoordinate -> seq<real>)
    returns (views: SynchronizedViews)
    requires forall i :: 0 <= i < |coordinates| ==> coordinates[i].strand < 2
    ensures views.spiral3d.nodes == Nodes3DOf(categorized, coordinates, color, |coordinates|)
    ensures views.birdsEye2d.nodes == Nodes2DOf(categorized, coordinates, color, project, |coordinates|)
    ensures views.synchronization.nodeMapping == MappingUpTo(views.spiral3d.nodes, views.birdsEye2d.nodes, |coordinates|)
    ensures views.synchronization.nodeMapping.Valid()
    ensures views.synchronization.viewTransitions
         == TransitionsOf(views.synchronization.nodeMapping.keys, views.synchronization.nodeMapping.items)
  {
    var spiral3d := Generate3DSpiralView(categorized, coordinates, color);
    var birdsEye2d := Generate2DBirdsEyeView(categorized, coordinates, color, project);
    var mapping := MapNodes(spiral3d.nodes, birdsEye2d.nodes);
    MappingUpToKeys(spiral3d.nodes, birdsEye2d.nodes, |spiral3d.nodes|);
    var transitions := Transitions(mapping);
    views := SynchronizedViews(spiral3d, birdsEye2d, Synchronization(mapping, transitions));
  }

  /** The node mapping loop of `generate_synchronized_views`. */
  method MapNodes(nodes3d: seq<Node3D>, nodes2d: seq<Node2D>) returns (mapping: Dict<string, NodeMapping>)
    ensures mapping == MappingUpTo(nodes3d, nodes2d, |nodes3d|)
  {
    mapping := Empty();
    var k := 0;
    while k < |nodes3d|
      invariant 0 <= k <= |nodes3d|
      invariant mapping == MappingUpTo(nodes3d, nodes2d, k)
    {
      mapping := MapNode(nodes3d, nodes2d, k, mapping);
      k := k + 1;
    }
  }

  /** One iteration of the node mapping loop: 3D node k is mapped when a 2D node has its id. */
  method MapNode(nodes3d: seq<Node3D>, nodes2d: seq<Node2D>, k: nat, mapping: Dict<string, NodeMapping>)
    returns (mapping': Dict<string, NodeMapping>)
    requires k < |nodes3d| && mapping == MappingUpTo(nodes3d, nodes2d, k)
    ensures mapping' == MappingUpTo(nodes3d, nodes2d, k + 1)
  {
    var node := nodes3d[k];
    var partner := FirstWithId(nodes2d, node.id);
    mapping' := mapping;
    if partner.Some? {
      mapping' := mapping.Put(node.id, NodeMapping(node.position, partner.value.position2d, node.category));
    }
  }

  /** The transition loop of `generate_synchronized_views`. */
  method Transitions(mapping: Dict<string, NodeMapping>) returns (transitions: Dict<string, Transition>)
    requires mapping.Valid()
    ensures transitions == TransitionsOf(mapping.keys, mapping.items)
  {
    transitions := Empty();
    var i := 0;
    while i < |mapping.keys|
      invariant 0 <= i <= |mapping.keys|
      invariant transitions == TransitionsOf(mapping.keys[..i], mapping.items)
    {
      var id := mapping.keys[i];
      var m := mapping.items[id];
      assert mapping.keys[..i + 1][..i] == mapping.keys[..i];
      transitions := transitions.Put(id, Transition(Animation(m.position3d, m.position2d + [0.0], 1000),
                                                    Animation(m.position2d + [0.0], m.position3d, 1000)));
      i := i + 1;
    }
    assert mapping.keys[..i] == mapping.keys;
  }
}
