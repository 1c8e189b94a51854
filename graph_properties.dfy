/** What the graph page promises about the nodes and edges it draws and
    about selecting and deselecting a friend. */
module GraphProperties {
  import opened JsValues
  import opened OrderedMap
  import opened GraphFormat
  import opened Graph

  // ---------------------------------------------------------------------
  // Nodes

  /** One node per key, in key order, each drawn from the record that the key
      looks up; no two nodes share an id. */
  lemma RenderedNodes(d: FriendData)
    requires WellFormed(d)
    ensures var nodes := Rendered(d).nodes;
      && |nodes| == |Keys(d)|
      && (forall i :: 0 <= i < |nodes| ==>
            && nodes[i].id == Keys(d)[i]
            && Get(d, nodes[i].id).Some?
            && nodes[i] == NodeFor(d, nodes[i].id, Get(d, nodes[i].id).value))
      && forall i, j :: 0 <= i < j < |nodes| ==> nodes[i].id != nodes[j].id
  {
    forall i | 0 <= i < |d| {
      GetAt(d, i);
    }
  }

  /** The connection count is taken entry by entry: the entries of a
      concatenation that are keys are those of each part, duplicates kept. */
  lemma {:induction false} InMapAppend(d: FriendData, a: seq<string>, b: seq<string>)
    ensures InMap(d, a + b) == InMap(d, a) + InMap(d, b)
  {
    if a == [] {
      assert a + b == b;
    } else {
      assert (a + b)[1..] == a[1..] + b;
      InMapAppend(d, a[1..], b);
    }
  }

  /** One more entry adds one to the count exactly when it is a key. */
  lemma InMapSnoc(d: FriendData, cs: seq<string>, c: string)
    ensures |InMap(d, cs + [c])| == |InMap(d, cs)| + (if Has(d, c) then 1 else 0)
  {
    InMapAppend(d, cs, [c]);
    assert [c][1..] == [];
  }

  // ---------------------------------------------------------------------
  // Edges

  /** The i-th friend lists, as its c-th connection, a key of the map. */
  predicate Lists(d: FriendData, i: int, c: int) {
    0 <= i < |d| && 0 <= c < |d[i].1.connections| && Has(d, d[i].1.connections[c])
  }

  function Mutual(d: FriendData, i: nat, c: nat): string
    requires i < |d| && c < |d[i].1.connections|
  {
    d[i].1.connections[c]
  }

  /** No key contains '-', as with Discord's numeric ids. */
  predicate NoDash(d: FriendData) {
    forall i :: 0 <= i < |d| ==> '-' !in d[i].0
  }

  /** An edge key among a friend's links comes from one of its connections
      that is a key of the map. */
  lemma {:induction false} LinksOfSound(d: FriendData, id: string, cs: seq<string>, l: string) returns (c: nat)
    requires l in LinksOf(d, id, cs)
    ensures c < |cs| && Has(d, cs[c]) && l == EdgeKey(id, cs[c])
  {
    var p := cs[..|cs| - 1];
    if l in LinksOf(d, id, p) {
      c := LinksOfSound(d, id, p, l);
      assert p[c] == cs[c];
    } else {
      c := |cs| - 1;
    }
  }

  /** Each connection that is a key of the map gives a link. */
  lemma {:induction false} LinksOfComplete(d: FriendData, id: string, cs: seq<string>, c: nat)
    requires c < |cs| && Has(d, cs[c])
    ensures EdgeKey(id, cs[c]) in LinksOf(d, id, cs)
  {
    var p := cs[..|cs| - 1];
    if c < |cs| - 1 {
      LinksOfComplete(d, id, p, c);
      assert p[c] == cs[c];
    }
  }

  lemma {:induction false} AllLinksSound(d: FriendData, k: nat, l: string) returns (i: nat, c: nat)
    requires k <= |d| && l in AllLinks(d, k)
    ensures i < k && Lists(d, i, c) && l == EdgeKey(d[i].0, Mutual(d, i, c))
  {
    if l in AllLinks(d, k - 1) {
      i, c := AllLinksSound(d, k - 1, l);
    } else {
      i := k - 1;
      c := LinksOfSound(d, d[i].0, d[i].1.connections, l);
    }
  }

  lemma {:induction false} AllLinksComplete(d: FriendData, k: nat, i: nat, c: nat)
    requires i < k <= |d| && Lists(d, i, c)
    ensures EdgeKey(d[i].0, Mutual(d, i, c)) in AllLinks(d, k)
  {
    if i == k - 1 {
      LinksOfComplete(d, d[i].0, d[i].1.connections, c);
    } else {
      AllLinksComplete(d, k - 1, i, c);
    }
  }

  /** An edge key is added exactly for a friend and a connection of it that
      is a key of the map. */
  lemma AllLinksMember(d: FriendData, k: nat, l: string)
    requires k <= |d|
    ensures l in AllLinks(d, k) <==>
      exists i, c :: 0 <= i < k && Lists(d, i, c) && l == EdgeKey(d[i].0, Mutual(d, i, c))
  {
    if l in AllLinks(d, k) {
      var i, c := AllLinksSound(d, k, l);
    }
    if exists i, c :: 0 <= i < k && Lists(d, i, c) && l == EdgeKey(d[i].0, Mutual(d, i, c)) {
      var i, c :| 0 <= i < k && Lists(d, i, c) && l == EdgeKey(d[i].0, Mutual(d, i, c));
      AllLinksComplete(d, k, i, c);
    }
  }

  lemma KeyNoDash(d: FriendData, m: string)
    requires NoDash(d) && Has(d, m)
    ensures '-' !in m
  {
    var i :| 0 <= i < |Keys(d)| && Keys(d)[i] == m;
  }

  /** Splitting the edge key of two dash-free ids gives back their sorted pair. */
  lemma EdgeKeySplit(a: string, b: string)
    requires '-' !in a && '-' !in b
    ensures var parts := SplitOn(EdgeKey(a, b), '-');
      |parts| == 2 && (parts[0], parts[1]) == SortedPair(a, b)
  {
    var p := SortedPair(a, b);
    SplitOnJoined(p.0, p.1, '-');
    assert p.0 + "-" + p.1 == p.0 + ['-'] + p.1;
  }

  /** Every edge joins two keys of the map, in sorted order, one of which
      lists the other. */
  lemma EdgeEnds(d: FriendData, j: nat)
    requires NoDash(d) && j < |Rendered(d).edges|
    ensures var e := Rendered(d).edges[j];
      && e.id == j && e.style == Plain
      && Has(d, e.from) && Has(d, e.to) && StrLe(e.from, e.to)
      && exists i, c :: Lists(d, i, c) && (e.from, e.to) == SortedPair(d[i].0, Mutual(d, i, c))
  {
    var link := LinkSet(d)[j];
    assert link in AllLinks(d, |d|);
    var i, c := AllLinksSound(d, |d|, link);
    var a, m := d[i].0, Mutual(d, i, c);
    KeyNoDash(d, m);
    EdgeKeySplit(a, m);
    SortedPairSymmetric(a, m);
    assert Has(d, a) by { assert Keys(d)[i] == a; }
  }

  /** Every friend's connection that is a key of the map is drawn as an edge. */
  lemma EdgeComplete(d: FriendData, i: nat, c: nat)
    requires NoDash(d) && Lists(d, i, c)
    ensures var edges := Rendered(d).edges;
      exists j :: 0 <= j < |edges| && (edges[j].from, edges[j].to) == SortedPair(d[i].0, Mutual(d, i, c))
  {
    var link := EdgeKey(d[i].0, Mutual(d, i, c));
    AllLinksComplete(d, |d|, i, c);
    assert link in LinkSet(d);
    var j :| 0 <= j < |LinkSet(d)| && LinkSet(d)[j] == link;
    KeyNoDash(d, Mutual(d, i, c));
    EdgeKeySplit(d[i].0, Mutual(d, i, c));
    EdgeAt(d, j);
  }

  lemma EdgeAt(d: FriendData, j: nat)
    requires j < |LinkSet(d)|
    ensures |Rendered(d).edges| == |LinkSet(d)|
    ensures Rendered(d).edges[j] == EdgeOf(j, LinkSet(d)[j])
  {
  }

  /** No two edges join the same pair. */
  lemma EdgesDistinct(d: FriendData, j: nat, k: nat)
    requires NoDash(d) && j < k < |Rendered(d).edges|
    ensures (Rendered(d).edges[j].from, Rendered(d).edges[j].to) != (Rendered(d).edges[k].from, Rendered(d).edges[k].to)
  {
    var lj, lk := LinkSet(d)[j], LinkSet(d)[k];
    EdgeSplitsBack(d, lj);
    EdgeSplitsBack(d, lk);
  }

  /** An edge key is its two ends joined by '-'. */
  lemma EdgeSplitsBack(d: FriendData, link: string)
    requires NoDash(d) && link in AllLinks(d, |d|)
    ensures var parts := SplitOn(link, '-'); |parts| >= 2 && link == parts[0] + "-" + parts[1]
  {
    var i, c := AllLinksSound(d, |d|, link);
    KeyNoDash(d, Mutual(d, i, c));
    EdgeKeySplit(d[i].0, Mutual(d, i, c));
  }

  /** Two keys of which one lists the other are joined by exactly one edge,
      whichever side lists the other (or both do). */
  lemma EdgeOncePerPair(d: FriendData, i: nat, c: nat)
    requires NoDash(d) && Lists(d, i, c)
    ensures var pair := SortedPair(d[i].0, Mutual(d, i, c)); var edges := Rendered(d).edges;
      exists j :: 0 <= j < |edges| && (edges[j].from, edges[j].to) == pair
        && forall k :: 0 <= k < |edges| && (edges[k].from, edges[k].to) == pair ==> k == j
  {
    var pair := SortedPair(d[i].0, Mutual(d, i, c));
    var edges := Rendered(d).edges;
    EdgeComplete(d, i, c);
    var j :| 0 <= j < |edges| && (edges[j].from, edges[j].to) == pair;
    forall k | 0 <= k < |edges| && (edges[k].from, edges[k].to) == pair
      ensures k == j
    {
      if k < j {
        EdgesDistinct(d, k, j);
      } else if j < k {
        EdgesDistinct(d, j, k);
      }
    }
  }

  // ---------------------------------------------------------------------
  // Selecting and deselecting

  /** The node ids are the keys in order and the edge ids their positions:
      true of the drawn network and kept by every update. */
  predicate Shaped(d: FriendData, net: Network) {
    && |net.nodes| == |d|
    && (forall i :: 0 <= i < |d| ==> net.nodes[i].id == d[i].0)
    && forall j :: 0 <= j < |net.edges| ==> net.edges[j].id == j
  }

  lemma RenderedShaped(d: FriendData)
    ensures Shaped(d, Rendered(d))
  {
  }

  /** With no other update for the same id, an update takes effect. */
  lemma {:induction false} LatestUnique<K, A>(us: seq<Update<K, A>>, i: nat)
    requires i < |us|
    requires forall j :: 0 <= j < |us| && j != i ==> us[j].id != us[i].id
    ensures Latest(us, us[i].id) == Some(us[i].value)
  {
    if i < |us| - 1 {
      var p := us[..|us| - 1];
      assert forall j :: 0 <= j < |p| && j != i ==> p[j].id != p[i].id;
      LatestUnique(p, i);
    }
  }

  lemma ApplyAlignedNodes(d: FriendData, nodes: seq<VisNode>, us: seq<Update<string, Opacity>>)
    requires WellFormed(d) && |nodes| == |us| == |d|
    requires forall i :: 0 <= i < |d| ==> nodes[i].id == d[i].0 && us[i].id == d[i].0
    ensures forall i :: 0 <= i < |d| ==> ApplyToNodes(nodes, us)[i] == nodes[i].(opacity := us[i].value)
  {
    forall i | 0 <= i < |d|
      ensures ApplyToNodes(nodes, us)[i] == nodes[i].(opacity := us[i].value)
    {
      forall j | 0 <= j < |us| && j != i
        ensures us[j].id != us[i].id
      {
        assert Keys(d)[i] == d[i].0 && Keys(d)[j] == d[j].0;
      }
      LatestUnique(us, i);
    }
  }

  lemma ApplyAlignedEdges(edges: seq<VisEdge>, us: seq<Update<nat, EdgeStyle>>)
    requires |edges| == |us|
    requires forall j :: 0 <= j < |edges| ==> edges[j].id == j && us[j].id == j
    ensures forall j :: 0 <= j < |edges| ==> ApplyToEdges(edges, us)[j] == edges[j].(style := us[j].value)
  {
    forall j | 0 <= j < |edges|
      ensures ApplyToEdges(edges, us)[j] == edges[j].(style := us[j].value)
    {
      LatestUnique(us, j);
    }
  }

  /** After selecting `sel`, a node is at full opacity exactly when it is
      `sel` or listed by `sel`; an edge is emphasised exactly when one of its
      ends is `sel`. Nothing else about a node or edge changes. */
  lemma HighlightEffect(d: FriendData, net: Network, sel: string)
    requires WellFormed(d) && Shaped(d, net) && Has(d, sel)
    ensures var h, listed := Highlighted(net, d, sel), Get(d, sel).value.connections;
      && Shaped(d, h) && |h.edges| == |net.edges|
      && (forall i :: 0 <= i < |d| ==>
            h.nodes[i] == net.nodes[i].(opacity := if d[i].0 == sel || d[i].0 in listed then Full else Dimmed))
      && forall j :: 0 <= j < |net.edges| ==>
            h.edges[j] == net.edges[j].(style := if net.edges[j].from == sel || net.edges[j].to == sel then Emphasised else Faded)
  {
    var listed := Get(d, sel).value.connections;
    ApplyAlignedNodes(d, net.nodes, HighlightNodeUpdates(d, sel, listed));
    ApplyAlignedEdges(net.edges, HighlightEdgeUpdates(net.edges, sel));
  }

  /** After deselecting, every node is at full opacity and every edge plain;
      nothing else changes. */
  lemma RestoreEffect(d: FriendData, net: Network)
    requires WellFormed(d) && Shaped(d, net)
    ensures var r := Restored(net, d);
      && Shaped(d, r) && |r.edges| == |net.edges|
      && (forall i :: 0 <= i < |d| ==> r.nodes[i] == net.nodes[i].(opacity := Full))
      && forall j :: 0 <= j < |net.edges| ==> r.edges[j] == net.edges[j].(style := Plain)
  {
    ApplyAlignedNodes(d, net.nodes, ResetNodeUpdates(d));
    ApplyAlignedEdges(net.edges, ResetEdgeUpdates(net.edges));
  }

  /** Deselecting after selecting gives back the network as first drawn. */
  lemma ResetUndoesHighlight(d: FriendData, sel: string)
    requires WellFormed(d) && Has(d, sel)
    ensures Restored(Highlighted(Rendered(d), d, sel), d) == Rendered(d)
  {
    RenderedShaped(d);
    RenderedPlain(d);
    HighlightThenRestore(d, Rendered(d), sel);
  }

  /** Every node of the drawn network is at full opacity, every edge plain. */
  lemma RenderedPlain(d: FriendData)
    ensures forall i :: 0 <= i < |Rendered(d).nodes| ==> Rendered(d).nodes[i].opacity == Full
    ensures forall j :: 0 <= j < |Rendered(d).edges| ==> Rendered(d).edges[j].style == Plain
  {
  }

  lemma HighlightThenRestore(d: FriendData, net: Network, sel: string)
    requires WellFormed(d) && Shaped(d, net) && Has(d, sel)
    requires forall i :: 0 <= i < |net.nodes| ==> net.nodes[i].opacity == Full
    requires forall j :: 0 <= j < |net.edges| ==> net.edges[j].style == Plain
    ensures Restored(Highlighted(net, d, sel), d) == net
  {
    HighlightEffect(d, net, sel);
    var h := Highlighted(net, d, sel);
    RestoreEffect(d, h);
    var r := Restored(h, d);
    assert r.nodes == net.nodes;
    assert r.edges == net.edges;
  }

  /** Every friend that lists a key is listed back by it. */
  predicate Symmetric(d: FriendData) {
    forall i, c :: 0 <= i < |d| && 0 <= c < |d[i].1.connections| && Lists(d, i, c) ==> d[i].0 in Get(d, Mutual(d, i, c)).value.connections
  }

  /** When the connections are symmetric, both ends of every emphasised edge
      stay at full opacity. (A friend whose mutual request failed lists
      nobody, so this can fail for the stored data: selecting that friend
      emphasises the edges other friends draw to it, but dims those friends,
      as it does not list them.) */
  lemma EmphasisedEdgesJoinFullNodes(d: FriendData, sel: string, j: nat, k: nat)
    requires WellFormed(d) && NoDash(d) && Symmetric(d) && Has(d, sel)
    requires j < |Rendered(d).edges| && k < |d|
    requires var e := Highlighted(Rendered(d), d, sel).edges[j];
      e.style == Emphasised && (d[k].0 == e.from || d[k].0 == e.to)
    ensures Highlighted(Rendered(d), d, sel).nodes[k].opacity == Full
  {
    var net := Rendered(d);
    RenderedShaped(d);
    HighlightEffect(d, net, sel);
    EdgeEnds(d, j);
    var e, h := net.edges[j], Highlighted(net, d, sel);
    assert h.edges[j] == e.(style := h.edges[j].style);
    assert e.from == sel || e.to == sel;
    var i, c :| Lists(d, i, c) && (e.from, e.to) == SortedPair(d[i].0, Mutual(d, i, c));
    SortedPairEnds(d[i].0, Mutual(d, i, c));
    assert sel == d[i].0 || sel == Mutual(d, i, c);
    assert d[k].0 == d[i].0 || d[k].0 == Mutual(d, i, c);
    OtherEndListed(d, i, c, sel, d[k].0);
  }

  lemma SortedPairEnds(a: string, b: string)
    ensures var p := SortedPair(a, b); (p.0 == a && p.1 == b) || (p.0 == b && p.1 == a)
  {
  }

  /** Of a friend and a connection of it, each is the other or is listed by it. */
  lemma OtherEndListed(d: FriendData, i: nat, c: nat, sel: string, o: string)
    requires WellFormed(d) && Symmetric(d) && Lists(d, i, c) && Has(d, sel)
    requires (sel == d[i].0 || sel == Mutual(d, i, c)) && (o == d[i].0 || o == Mutual(d, i, c))
    ensures o == sel || o in Get(d, sel).value.connections
  {
    GetAt(d, i);
    if o != sel && sel == d[i].0 {
      assert o == d[i].1.connections[c];
    }
  }
}
