/** The graph page (graph.js): it turns the stored friend map into vis.js
    nodes and edges, and dims or emphasises them when a friend is selected.
    Opacities and edge colours are symbolic: `Full` is opacity 1.0, `Dimmed`
    0.15; an edge is `Plain` ('#444', width 1), `Emphasised` ('#5865f2',
    width 2) or `Faded` (8% grey, width 1). */
module Graph {
  import opened JsValues
  import opened OrderedMap
  import opened GraphFormat

  /** The `connections` object read from storage. */
  type FriendData = Dict<StoredFriend>

  /** A JavaScript object never has a key twice. */
  predicate WellFormed(d: FriendData) {
    NoDuplicates(Keys(d))
  }

  const DefaultAvatarUrl := "https://cdn.discordapp.com/embed/avatars/0.png"
  const NoDataText := "No data. Scan friends first."

  datatype Opacity = Full | Dimmed
  datatype EdgeStyle = Plain | Emphasised | Faded

  /** A vis node `{id, image, label, title}` (`label` is `caption` here); vis draws it at full opacity
      until an update says otherwise. */
  datatype VisNode = VisNode(id: string, image: string, caption: string, title: string, opacity: Opacity)

  /** A vis edge `{from, to}`. vis gives each edge an id of its own; here the
      edges are numbered by position. */
  datatype VisEdge = VisEdge(id: nat, from: string, to: string, style: EdgeStyle)

  /** The node and edge data sets of the vis network. */
  datatype Network = Network(nodes: seq<VisNode>, edges: seq<VisEdge>)

  /** An entry `{id, ...}` of the array given to a data set's `update`. */
  datatype Update<K, A> = Update(id: K, value: A)

  // ---------------------------------------------------------------------
  // Nodes and edges built by loadGraph

  /** `cs.filter(m => connections[normalizeId(m)])`: the entries that are
      keys of the map, duplicates included, in order. */
  function InMap(d: FriendData, cs: seq<string>): (ms: seq<string>)
    ensures |ms| <= |cs|
    ensures forall i :: 0 <= i < |ms| ==> Has(d, ms[i])
    ensures forall i :: 0 <= i < |cs| && Has(d, cs[i]) ==> cs[i] in ms
    ensures (|ms| == |cs|) <==> forall i :: 0 <= i < |cs| ==> Has(d, cs[i])
  {
    if cs == [] then []
    else
      var rest := InMap(d, cs[1..]);
      assert forall i :: 1 <= i < |cs| ==> cs[i] == cs[1..][i - 1];
      if Has(d, cs[0]) then [cs[0]] + rest else rest
  }

  /** The node of the friend stored under `id`. */
  function NodeFor(d: FriendData, id: string, f: StoredFriend): VisNode {
    var name := GetDisplayName(f);
    VisNode(id,
      if Truthy(f.avatarUrl) then f.avatarUrl.value else DefaultAvatarUrl,
      name,
      name + " - " + FormatConnectionCount(|InMap(d, f.connections)|),
      Full)
  }

  /** `[a, b].sort().join('-')`. */
  function EdgeKey(a: string, b: string): (k: string)
    ensures '-' in k
  {
    var p := SortedPair(a, b);
    assert (p.0 + "-" + p.1)[|p.0|] == '-';
    p.0 + "-" + p.1
  }

  /** The edge keys added while walking the connections `cs` of friend `id`:
      one per connection that is a key of the map. */
  function LinksOf(d: FriendData, id: string, cs: seq<string>): (ls: seq<string>)
    ensures forall l :: l in ls ==> '-' in l
  {
    if cs == [] then []
    else LinksOf(d, id, cs[..|cs| - 1]) + (if Has(d, cs[|cs| - 1]) then [EdgeKey(id, cs[|cs| - 1])] else [])
  }

  /** The edge keys added by the first k friends, in order. */
  function AllLinks(d: FriendData, k: nat): (ls: seq<string>)
    requires k <= |d|
    ensures forall l :: l in ls ==> '-' in l
  {
    if k == 0 then [] else AllLinks(d, k - 1) + LinksOf(d, d[k - 1].0, d[k - 1].1.connections)
  }

  /** The `links` set after the loop: each edge key once, in order of first addition. */
  function LinkSet(d: FriendData): (ls: seq<string>)
    ensures forall l :: l in ls ==> '-' in l
  {
    Distinct(AllLinks(d, |d|))
  }

  /** The nodes in key order. */
  function NodesOf(d: FriendData): seq<VisNode> {
    NodesUpTo(d, |d|)
  }

  /** The nodes of the first k keys. */
  function NodesUpTo(d: FriendData, k: nat): (nodes: seq<VisNode>)
    requires k <= |d|
    ensures |nodes| == k && forall i :: 0 <= i < k ==> nodes[i] == NodeFor(d, d[i].0, d[i].1)
  {
    if k == 0 then [] else NodesUpTo(d, k - 1) + [NodeFor(d, d[k - 1].0, d[k - 1].1)]
  }

  /** `const [from, to] = link.split('-')`. */
  function EdgeOf(j: nat, link: string): VisEdge
    requires '-' in link
  {
    var parts := SplitOn(link, '-');
    VisEdge(j, parts[0], parts[1], Plain)
  }

  function EdgesOf(links: seq<string>): seq<VisEdge>
    requires forall l :: l in links ==> '-' in l
  {
    seq(|links|, j requires 0 <= j < |links| => EdgeOf(j, links[j]))
  }

  /** The network drawn by loadGraph for the map `d`. */
  function Rendered(d: FriendData): Network {
    Network(NodesOf(d), EdgesOf(LinkSet(d)))
  }

  function RenderingText(nodes: nat, edges: nat): string {
    "Rendering graph... " + NatToString(nodes) + " nodes, " + NatToString(edges) + " edges"
  }

  /** The loop of loadGraph that pushes one node per key and adds the edge
      keys of each friend's connections to the `links` set. */
  method BuildNodesAndLinks(d: FriendData) returns (nodes: seq<VisNode>, links: seq<string>)
    requires WellFormed(d)
    ensures nodes == NodesOf(d)
    ensures links == LinkSet(d)
  {
    nodes, links := [], [];
    var ids := Keys(d);
    for i := 0 to |ids|
      invariant nodes == NodesUpTo(d, i)
      invariant links == Distinct(AllLinks(d, i))
    {
      nodes, links := VisitKey(d, ids[i], i, nodes, links);
    }
  }

  /** One turn of that loop, for the i-th key. */
  method VisitKey(d: FriendData, id: string, i: nat, nodes0: seq<VisNode>, links0: seq<string>)
    returns (nodes: seq<VisNode>, links: seq<string>)
    requires WellFormed(d) && i < |d| && id == Keys(d)[i]
    requires nodes0 == NodesUpTo(d, i) && links0 == Distinct(AllLinks(d, i))
    ensures nodes == NodesUpTo(d, i + 1) && links == Distinct(AllLinks(d, i + 1))
  {
    GetAt(d, i);
    var friend := Get(d, id).value;
    assert id == d[i].0 && friend == d[i].1;
    nodes := nodes0 + [NodeFor(d, id, friend)];
    links := AddLinks(d, id, friend.connections, AllLinks(d, i), links0);
  }

  /** `friend.connections.forEach(...)`: adds the edge key of every
      connection that is a key of the map to the set `links`. */
  method AddLinks(d: FriendData, id: string, cs: seq<string>, ghost before: seq<string>, links0: seq<string>)
    returns (links: seq<string>)
    requires links0 == Distinct(before)
    ensures links == Distinct(before + LinksOf(d, id, cs))
  {
    links := links0;
    ghost var seen := before;
    assert before + LinksOf(d, id, cs[..0]) == before;
    for j := 0 to |cs|
      invariant seen == before + LinksOf(d, id, cs[..j])
      invariant links == Distinct(seen)
    {
      var mutualId := cs[j];
      LinksOfStep(d, id, cs, j, before);
      if Has(d, mutualId) {
        var edge := EdgeKey(id, mutualId);
        DistinctSnoc(seen, edge);
        if edge !in links {
          links := links + [edge];
        }
        seen := seen + [edge];
      }
    }
    assert cs[..|cs|] == cs;
  }

  /** Walking one more connection adds its edge key when it is a key of the map. */
  lemma LinksOfStep(d: FriendData, id: string, cs: seq<string>, j: nat, before: seq<string>)
    requires j < |cs|
    ensures before + LinksOf(d, id, cs[..j + 1])
         == before + LinksOf(d, id, cs[..j]) + (if Has(d, cs[j]) then [EdgeKey(id, cs[j])] else [])
  {
    assert cs[..j + 1][..j] == cs[..j];
  }

  /** `links.forEach(...)`: one edge per edge key, its ends read back by
      splitting the key at '-'. */
  method BuildEdges(links: seq<string>) returns (edges: seq<VisEdge>)
    requires forall l :: l in links ==> '-' in l
    ensures edges == EdgesOf(links)
  {
    edges := [];
    for j := 0 to |links|
      invariant |edges| == j
      invariant forall k :: 0 <= k < j ==> edges[k] == EdgeOf(k, links[k])
    {
      var parts := SplitOn(links[j], '-');
      edges := edges + [VisEdge(|edges|, parts[0], parts[1], Plain)];
    }
  }

  // ---------------------------------------------------------------------
  // Updates of the vis data sets

  /** The value of the last update for `id`, if any. */
  function Latest<K(==), A>(us: seq<Update<K, A>>, id: K): Option<A> {
    if us == [] then None
    else if us[|us| - 1].id == id then Some(us[|us| - 1].value)
    else Latest(us[..|us| - 1], id)
  }

  /** `nodes.update(us)` on the nodes already present. */
  function ApplyToNodes(nodes: seq<VisNode>, us: seq<Update<string, Opacity>>): seq<VisNode> {
    seq(|nodes|, i requires 0 <= i < |nodes| =>
      match Latest(us, nodes[i].id)
      case None => nodes[i]
      case Some(o) => nodes[i].(opacity := o))
  }

  /** `edges.update(us)` on the edges already present. */
  function ApplyToEdges(edges: seq<VisEdge>, us: seq<Update<nat, EdgeStyle>>): seq<VisEdge> {
    seq(|edges|, j requires 0 <= j < |edges| =>
      match Latest(us, edges[j].id)
      case None => edges[j]
      case Some(s) => edges[j].(style := s))
  }

  /** `net` is `base` up to the opacity of its nodes and the style of its
      edges: all that the click handlers change. */
  predicate Restyled(base: Network, net: Network) {
    && |net.nodes| == |base.nodes| && |net.edges| == |base.edges|
    && (forall i :: 0 <= i < |net.nodes| ==> net.nodes[i] == base.nodes[i].(opacity := net.nodes[i].opacity))
    && forall j :: 0 <= j < |net.edges| ==> net.edges[j] == base.edges[j].(style := net.edges[j].style)
  }

  /** Applying updates changes opacities and styles only. */
  lemma ApplyKeepsRestyled(base: Network, net: Network, us: seq<Update<string, Opacity>>, es: seq<Update<nat, EdgeStyle>>)
    requires Restyled(base, net)
    ensures Restyled(base, Network(ApplyToNodes(net.nodes, us), ApplyToEdges(net.edges, es)))
  {
  }

  /** The node updates of highlightConnections: full opacity for the
      selected id and the ids it lists, dimmed for every other key. */
  function HighlightNodeUpdates(d: FriendData, sel: string, connected: seq<string>): seq<Update<string, Opacity>> {
    seq(|d|, i requires 0 <= i < |d| =>
      Update(d[i].0, if d[i].0 == sel || d[i].0 in connected then Full else Dimmed))
  }

  /** The edge updates of highlightConnections. */
  function HighlightEdgeUpdates(edges: seq<VisEdge>, sel: string): seq<Update<nat, EdgeStyle>> {
    seq(|edges|, j requires 0 <= j < |edges| =>
      Update(edges[j].id, if edges[j].from == sel || edges[j].to == sel then Emphasised else Faded))
  }

  function ResetNodeUpdates(d: FriendData): seq<Update<string, Opacity>> {
    seq(|d|, i requires 0 <= i < |d| => Update(d[i].0, Full))
  }

  function ResetEdgeUpdates(edges: seq<VisEdge>): seq<Update<nat, EdgeStyle>> {
    seq(|edges|, j requires 0 <= j < |edges| => Update(edges[j].id, Plain))
  }

  /** The network after highlightConnections(sel). */
  function Highlighted(net: Network, d: FriendData, sel: string): Network
    requires Has(d, sel)
  {
    Network(
      ApplyToNodes(net.nodes, HighlightNodeUpdates(d, sel, Get(d, sel).value.connections)),
      ApplyToEdges(net.edges, HighlightEdgeUpdates(net.edges, sel)))
  }

  /** The network after resetHighlight. */
  function Restored(net: Network, d: FriendData): Network {
    Network(ApplyToNodes(net.nodes, ResetNodeUpdates(d)), ApplyToEdges(net.edges, ResetEdgeUpdates(net.edges)))
  }

  /** The `for (const id in connectionsData)` loop of highlightConnections. */
  method NodeHighlights(d: FriendData, sel: string, connected: seq<string>) returns (updates: seq<Update<string, Opacity>>)
    ensures updates == HighlightNodeUpdates(d, sel, connected)
  {
    var ids := Keys(d);
    updates := [];
    for i := 0 to |ids|
      invariant |updates| == i
      invariant forall k :: 0 <= k < i ==> updates[k] == Update(d[k].0, if d[k].0 == sel || d[k].0 in connected then Full else Dimmed)
    {
      var id := ids[i];
      if id == sel || id in connected {
        updates := updates + [Update(id, Full)];
      } else {
        updates := updates + [Update(id, Dimmed)];
      }
    }
  }

  /** The `for (const edge of edges)` loop of highlightConnections. */
  method EdgeHighlights(edges: seq<VisEdge>, sel: string) returns (edgeUpdates: seq<Update<nat, EdgeStyle>>)
    ensures edgeUpdates == HighlightEdgeUpdates(edges, sel)
  {
    edgeUpdates := [];
    for j := 0 to |edges|
      invariant |edgeUpdates| == j
      invariant forall k :: 0 <= k < j ==>
        edgeUpdates[k] == Update(edges[k].id, if edges[k].from == sel || edges[k].to == sel then Emphasised else Faded)
    {
      var edge := edges[j];
      var isConnected := edge.from == sel || edge.to == sel;
      edgeUpdates := edgeUpdates + [Update(edge.id, if isConnected then Emphasised else Faded)];
    }
  }

  /** The node loop of resetHighlight. */
  method NodeResets(d: FriendData) returns (updates: seq<Update<string, Opacity>>)
    ensures updates == ResetNodeUpdates(d)
  {
    var ids := Keys(d);
    updates := [];
    for i := 0 to |ids|
      invariant |updates| == i
      invariant forall k :: 0 <= k < i ==> updates[k] == Update(d[k].0, Full)
    {
      updates := updates + [Update(ids[i], Full)];
    }
  }

  /** The edge loop of resetHighlight. */
  method EdgeResets(edges: seq<VisEdge>) returns (edgeUpdates: seq<Update<nat, EdgeStyle>>)
    ensures edgeUpdates == ResetEdgeUpdates(edges)
  {
    edgeUpdates := [];
    for j := 0 to |edges|
      invariant |edgeUpdates| == j
      invariant forall k :: 0 <= k < j ==> edgeUpdates[k] == Update(edges[k].id, Plain)
    {
      edgeUpdates := edgeUpdates + [Update(edges[j].id, Plain)];
    }
  }

  // ---------------------------------------------------------------------
  // The page state

  /** The body of highlightConnections once the id is known to be a key. */
  method HighlightNetwork(d: FriendData, ghost base: Network, net: Network, sel: string) returns (next: Network)
    requires Has(d, sel) && Restyled(base, net)
    ensures next == Highlighted(net, d, sel) && Restyled(base, next)
  {
    var updates := NodeHighlights(d, sel, Get(d, sel).value.connections);
    var edgeUpdates := EdgeHighlights(net.edges, sel);
    next := Network(ApplyToNodes(net.nodes, updates), ApplyToEdges(net.edges, edgeUpdates));
    ApplyKeepsRestyled(base, net, updates, edgeUpdates);
  }

  /** The body of resetHighlight once the graph is loaded. */
  method RestoreNetwork(d: FriendData, ghost base: Network, net: Network) returns (next: Network)
    requires Restyled(base, net)
    ensures next == Restored(net, d) && Restyled(base, next)
  {
    var updates := NodeResets(d);
    var edgeUpdates := EdgeResets(net.edges);
    next := Network(ApplyToNodes(net.nodes, updates), ApplyToEdges(net.edges, edgeUpdates));
    ApplyKeepsRestyled(base, net, updates, edgeUpdates);
  }

  /** The module-level state of graph.js: `connectionsData`, `network` and
      the loading text. */
  class GraphPage {
    var connectionsData: Option<FriendData>
    var network: Option<Network>
    var loadingText: string

    /** The network as loadGraph drew it, before any click. */
    ghost var drawing: Network

    /** The stored map has no duplicate key, and a network, once there, is
        the drawing with some highlight applied. loadGraph makes the drawing
        the rendering of the stored map, and the click handlers change
        neither. */
    ghost predicate Valid()
      reads this
    {
      && (connectionsData.Some? ==> WellFormed(connectionsData.value))
      && (network.Some? ==> connectionsData.Some? && Restyled(drawing, network.value))
    }

    /** `let network = null; let connectionsData = null;` with the loading
        text the page starts with. */
    constructor (initialText: string)
      ensures Valid()
      ensures connectionsData == None && network == None && loadingText == initialText
    {
      connectionsData := None;
      network := None;
      loadingText := initialText;
    }

    /** loadGraph with the stored `connections` (None when absent). */
    method LoadGraph(stored: Option<FriendData>)
      requires Valid() && (stored.Some? ==> WellFormed(stored.value))
      modifies this
      ensures Valid()
      ensures stored.None? || stored.value == [] ==>
        && connectionsData == old(connectionsData) && network == old(network)
        && drawing == old(drawing) && loadingText == NoDataText
      ensures stored.Some? && stored.value != [] ==>
        && connectionsData == stored
        && network == Some(Rendered(stored.value)) && drawing == Rendered(stored.value)
        && loadingText == RenderingText(|NodesOf(stored.value)|, |LinkSet(stored.value)|)
    {
      if stored.None? || |Keys(stored.value)| == 0 {
        loadingText := NoDataText;
        return;
      }
      var d := stored.value;
      connectionsData := stored;
      var nodes, links := BuildNodesAndLinks(d);
      var edges := BuildEdges(links);
      loadingText := RenderingText(|nodes|, |edges|);
      network := Some(Network(nodes, edges));
      drawing := network.value;
    }

    /** highlightConnections(nodeId): nothing happens for an id that is not
        a key; otherwise the node and edge updates are applied. The click
        handler that calls it exists only once both fields are set. */
    method HighlightConnections(nodeId: string)
      requires Valid() && connectionsData.Some? && network.Some?
      modifies this
      ensures Valid()
      ensures connectionsData == old(connectionsData) && drawing == old(drawing) && loadingText == old(loadingText)
      ensures !Has(connectionsData.value, nodeId) ==> network == old(network)
      ensures Has(connectionsData.value, nodeId) ==>
        network == Some(Highlighted(old(network.value), connectionsData.value, nodeId))
    {
      var d := connectionsData.value;
      var friend := Get(d, nodeId);
      if friend.None? {
        return;
      }
      var next := HighlightNetwork(d, drawing, network.value, nodeId);
      network := Some(next);
    }

    /** resetHighlight: nothing happens before the graph is loaded. */
    method ResetHighlight()
      requires Valid()
      modifies this
      ensures Valid()
      ensures connectionsData == old(connectionsData) && drawing == old(drawing) && loadingText == old(loadingText)
      ensures old(connectionsData.None? || network.None?) ==> network == old(network)
      ensures old(connectionsData.Some? && network.Some?) ==>
        network == Some(Restored(old(network.value), connectionsData.value))
    {
      if connectionsData.None? || network.None? {
        return;
      }
      var next := RestoreNetwork(connectionsData.value, drawing, network.value);
      network := Some(next);
    }
  }
}
