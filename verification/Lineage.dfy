/** Asset lineage: the ancestors and descendants of one node of a directed graph, cycles allowed. */
module Lineage {
  import opened Rows

  datatype Node = Node(id: string, name: Option<string>)
  datatype Edge = Edge(from: string, to: string)
  datatype Graph = Graph(nodes: seq<Node>, edges: seq<Edge>)

  // ----- Paths -----

  ghost predicate IsPath(edges: seq<Edge>, p: seq<string>) {
    p != [] && forall i :: 0 <= i < |p| - 1 ==> Edge(p[i], p[i + 1]) in edges
  }

  ghost predicate Joins(edges: seq<Edge>, p: seq<string>, a: string, b: string) {
    IsPath(edges, p) && p[0] == a && p[|p| - 1] == b
  }

  /** A directed path leads from `a` to `b`. */
  ghost predicate Reaches(edges: seq<Edge>, a: string, b: string) {
    exists p :: Joins(edges, p, a, b)
  }

  lemma ReachesItself(edges: seq<Edge>, a: string)
    ensures Reaches(edges, a, a)
  {
    assert Joins(edges, [a], a, a);
  }

  lemma Prepend(edges: seq<Edge>, e: Edge, b: string)
    requires e in edges && Reaches(edges, e.to, b)
    ensures Reaches(edges, e.from, b)
  {
    var p :| Joins(edges, p, e.to, b);
    var q := [e.from] + p;
    forall i | 0 <= i < |q| - 1 ensures Edge(q[i], q[i + 1]) in edges {
      if i > 0 {
        assert Edge(p[i - 1], p[i]) in edges;
      } else {
        assert Edge(q[0], q[1]) == e;
      }
    }
    assert Joins(edges, q, e.from, b);
  }

  lemma Append(edges: seq<Edge>, a: string, e: Edge)
    requires e in edges && Reaches(edges, a, e.from)
    ensures Reaches(edges, a, e.to)
  {
    var p :| Joins(edges, p, a, e.from);
    var q := p + [e.to];
    forall i | 0 <= i < |q| - 1 ensures Edge(q[i], q[i + 1]) in edges {
      if i < |p| - 1 {
        assert Edge(p[i], p[i + 1]) in edges;
      } else {
        assert Edge(q[i], q[i + 1]) == e;
      }
    }
    assert Joins(edges, q, a, e.to);
  }

  // ----- The closure loop -----

  /** The end of an edge a closure enters it by, and the end it leaves by: upwards an edge is
      followed from its target to its origin. */
  function Entry(e: Edge, up: bool): string { if up then e.to else e.from }
  function Exit(e: Edge, up: bool): string { if up then e.from else e.to }

  ghost predicate Linked(edges: seq<Edge>, up: bool, start: string, x: string) {
    if up then Reaches(edges, x, start) else Reaches(edges, start, x)
  }

  ghost predicate ClosedUnder(edges: seq<Edge>, up: bool, selected: set<string>) {
    forall i :: 0 <= i < |edges| && Entry(edges[i], up) in selected ==> Exit(edges[i], up) in selected
  }

  function Ends(edges: seq<Edge>): set<string> {
    (set i | 0 <= i < |edges| :: edges[i].from) + (set i | 0 <= i < |edges| :: edges[i].to)
  }

  lemma LinkedGoesOn(edges: seq<Edge>, up: bool, start: string, e: Edge)
    requires e in edges && Linked(edges, up, start, Entry(e, up))
    ensures Linked(edges, up, start, Exit(e, up))
  {
    if up { Prepend(edges, e, start); } else { Append(edges, start, e); }
  }

  /** A set that contains the start and is closed contains everything linked to it. */
  lemma {:induction false} ClosedHasPath(edges: seq<Edge>, up: bool, selected: set<string>, p: seq<string>)
    requires ClosedUnder(edges, up, selected) && IsPath(edges, p)
    requires if up then p[|p| - 1] in selected else p[0] in selected
    ensures forall i :: 0 <= i < |p| ==> p[i] in selected
  {
    if |p| > 1 {
      var e := if up then Edge(p[|p| - 2], p[|p| - 1]) else Edge(p[0], p[1]);
      assert e in edges;
      var k :| 0 <= k < |edges| && edges[k] == e;
      var rest := if up then p[..|p| - 1] else p[1..];
      assert forall i :: 0 <= i < |rest| - 1 ==>
        Edge(rest[i], rest[i + 1]) == if up then Edge(p[i], p[i + 1]) else Edge(p[i + 1], p[i + 2]);
      ClosedHasPath(edges, up, selected, rest);
    }
  }

  /** Grow the selection pass by pass over the edges until a pass adds nothing; within a pass an
      addition is visible at once. */
  method Closure(edges: seq<Edge>, start: string, up: bool) returns (selected: set<string>)
    ensures forall x :: x in selected <==> Linked(edges, up, start, x)
  {
    selected := {start};
    ReachesItself(edges, start);
    var changed := true;
    ghost var all := Ends(edges) + {start};
    while changed
      invariant start in selected && selected <= all
      invariant forall x :: x in selected ==> Linked(edges, up, start, x)
      invariant !changed ==> ClosedUnder(edges, up, selected)
      decreases |all - selected|, if changed then 1 else 0
    {
      var before := selected;
      for i := 0 to |edges|
        invariant before <= selected <= all
        invariant forall x :: x in selected ==> Linked(edges, up, start, x)
        invariant forall k :: 0 <= k < i && Entry(edges[k], up) in before ==> Exit(edges[k], up) in selected
      {
        if Entry(edges[i], up) in selected {
          LinkedGoesOn(edges, up, start, edges[i]);
          selected := selected + {Exit(edges[i], up)};
        }
      }
      changed := |selected| != |before|;
      Grown(before, selected, all);
    }
    forall x | Linked(edges, up, start, x) ensures x in selected {
      var a, b := if up then x else start, if up then start else x;
      var p :| Joins(edges, p, a, b);
      ClosedHasPath(edges, up, selected, p);
    }
  }

  lemma Grown(small: set<string>, big: set<string>, all: set<string>)
    requires small <= big <= all
    ensures |small| <= |big|
    ensures |small| == |big| <==> small == big
    ensures |all - big| <= |all - small|
    ensures small != big ==> |all - big| < |all - small|
  {
    assert big == small + (big - small);
    assert all - small == (all - big) + (big - small);
  }

  // ----- Selection of one node -----

  /** The node that a later duplicate of its id does not hide. */
  function NodeOf(nodes: seq<Node>, id: string): Option<Node> {
    if nodes == [] then None
    else if nodes[|nodes| - 1].id == id then Some(nodes[|nodes| - 1])
    else NodeOf(nodes[..|nodes| - 1], id)
  }

  predicate IsMatch(nodes: seq<Node>, id: string, target: string) {
    NodeOf(nodes, id).Some? && (id == target || NodeOf(nodes, id).value.name == Some(target))
  }

  function Matches(nodes: seq<Node>, target: string): set<string> {
    set i | 0 <= i < |nodes| && IsMatch(nodes, nodes[i].id, target) :: nodes[i].id
  }

  function NodesIn(nodes: seq<Node>, selected: set<string>): seq<Node> {
    if nodes == [] then []
    else
      var n := nodes[|nodes| - 1];
      var front := NodesIn(nodes[..|nodes| - 1], selected);
      if n.id in selected then front + [n] else front
  }

  function EdgesIn(edges: seq<Edge>, selected: set<string>): seq<Edge> {
    if edges == [] then []
    else
      var e := edges[|edges| - 1];
      var front := EdgesIn(edges[..|edges| - 1], selected);
      if e.from in selected && e.to in selected then front + [e] else front
  }

  lemma {:induction false} NodesInMembers(nodes: seq<Node>, selected: set<string>)
    ensures forall n :: n in NodesIn(nodes, selected) <==> n in nodes && n.id in selected
  {
    if nodes != [] {
      NodesInMembers(nodes[..|nodes| - 1], selected);
      assert forall n :: n in nodes <==> n in nodes[..|nodes| - 1] || n == nodes[|nodes| - 1];
    }
  }

  lemma {:induction false} EdgesInMembers(edges: seq<Edge>, selected: set<string>)
    ensures forall e :: e in EdgesIn(edges, selected) <==> e in edges && e.from in selected && e.to in selected
  {
    if edges != [] {
      EdgesInMembers(edges[..|edges| - 1], selected);
      assert forall e :: e in edges <==> e in edges[..|edges| - 1] || e == edges[|edges| - 1];
    }
  }

  /** The part of a graph whose nodes are selected, in the order of the graph. */
  function Restrict(g: Graph, selected: set<string>): Graph {
    Graph(NodesIn(g.nodes, selected), EdgesIn(g.edges, selected))
  }

  datatype Selection = NotOne(found: nat) | Selected(target: string, graph: Graph)

  /** The ids on some directed path that ends, or starts, at the target. */
  ghost function Relatives(g: Graph, target: string, up: bool): (r: set<string>)
    ensures forall x :: x in r <==> Linked(g.edges, up, target, x)
  {
    forall x | Linked(g.edges, up, target, x) ensures x in Ends(g.edges) + {target} {
      LinkedIsAnEnd(g.edges, up, target, x);
    }
    set x | x in Ends(g.edges) + {target} && Linked(g.edges, up, target, x)
  }

  lemma LinkedIsAnEnd(edges: seq<Edge>, up: bool, target: string, x: string)
    requires Linked(edges, up, target, x)
    ensures x in Ends(edges) + {target}
  {
    var a, b := if up then x else target, if up then target else x;
    var p :| Joins(edges, p, a, b);
    if |p| > 1 {
      assert Edge(p[0], p[1]) in edges && Edge(p[|p| - 2], p[|p| - 1]) in edges;
    }
  }

  /** What `ancestors` (upwards) and `descendants` (downwards) answer. */
  ghost function Selecting(g: Graph, target: string, up: bool): Selection {
    var matches := Matches(g.nodes, target);
    if |matches| != 1 then NotOne(|matches|)
    else
      var id :| id in matches;
      Selected(id, Restrict(g, Relatives(g, id, up)))
  }

  method Ancestors(g: Graph, target: string) returns (r: Selection)
    ensures r == Selecting(g, target, true)
  {
    r := Select(g, target, true);
  }

  method Descendants(g: Graph, target: string) returns (r: Selection)
    ensures r == Selecting(g, target, false)
  {
    r := Select(g, target, false);
  }

  method Select(g: Graph, target: string, up: bool) returns (r: Selection)
    ensures r == Selecting(g, target, up)
  {
    var matches := Matches(g.nodes, target);
    if |matches| != 1 {
      return NotOne(|matches|);
    }
    var id :| id in matches;
    var selected := Closure(g.edges, id, up);
    assert selected == Relatives(g, id, up);
    OnlyOne(matches, id);
    r := Selected(id, Restrict(g, selected));
  }

  lemma OnlyOne(s: set<string>, id: string)
    requires |s| == 1 && id in s
    ensures s == {id}
  {
    assert |s - {id}| == 0;
  }

  // ----- What the selections mean -----

  /** The last node listed under the id. */
  ghost predicate LastListed(nodes: seq<Node>, id: string, n: Node) {
    exists i :: 0 <= i < |nodes| && nodes[i] == n && n.id == id && forall j :: i < j < |nodes| ==> nodes[j].id != id
  }

  lemma {:induction false} NodeOfIsLast(nodes: seq<Node>, id: string)
    ensures NodeOf(nodes, id).Some? <==> exists n :: LastListed(nodes, id, n)
    ensures forall n :: LastListed(nodes, id, n) ==> NodeOf(nodes, id) == Some(n)
  {
    if nodes != [] {
      var k := |nodes| - 1;
      NodeOfIsLast(nodes[..k], id);
      if nodes[k].id == id {
        assert LastListed(nodes, id, nodes[k]);
      } else {
        forall n ensures LastListed(nodes, id, n) <==> LastListed(nodes[..k], id, n) {
          if LastListed(nodes[..k], id, n) {
            var i :| 0 <= i < k && nodes[..k][i] == n && n.id == id && forall j :: i < j < k ==> nodes[..k][j].id != id;
            assert nodes[i] == n && forall j :: i < j < k ==> nodes[j].id == nodes[..k][j].id;
          }
        }
      }
    }
  }

  /** A name asks for the nodes with that id or that name; of several nodes under one id the last counts. */
  lemma MatchesAre(nodes: seq<Node>, target: string, id: string)
    ensures id in Matches(nodes, target) <==>
      exists n :: LastListed(nodes, id, n) && (id == target || n.name == Some(target))
  {
    hide LastListed;
    MatchIsListed(nodes, id, target);
    NodeOfIsLast(nodes, id);
  }

  /** An edge into the target makes its origin an ancestor, and its end a descendant of its origin. */
  lemma EdgesGoDown(g: Graph, target: string, e: Edge, n: Node)
    requires e in g.edges && n in g.nodes
    ensures Names(g, target, e.to) && n.id == e.from ==> n in Selecting(g, target, true).graph.nodes
    ensures Names(g, target, e.from) && n.id == e.to ==> n in Selecting(g, target, false).graph.nodes
  {
    hide Selecting, Names;
    assert Joins(g.edges, [e.from, e.to], e.from, e.to);
    if Names(g, target, e.to) { SelectionIsReachability(g, target, true, e.to); }
    if Names(g, target, e.from) { SelectionIsReachability(g, target, false, e.from); }
  }

  /** A selection lists its nodes and edges in the order of the graph, repetitions included. */
  lemma SelectionKeepsOrder(g: Graph, n: Node, e: Edge, selected: set<string>)
    ensures Restrict(g.(nodes := g.nodes + [n]), selected).nodes ==
      Restrict(g, selected).nodes + if n.id in selected then [n] else []
    ensures Restrict(g.(edges := g.edges + [e]), selected).edges ==
      Restrict(g, selected).edges + if e.from in selected && e.to in selected then [e] else []
  {
    assert (g.nodes + [n])[..|g.nodes|] == g.nodes && (g.edges + [e])[..|g.edges|] == g.edges;
  }

  ghost predicate Names(g: Graph, target: string, id: string) {
    Matches(g.nodes, target) == {id}
  }

  /** The selected nodes are exactly those on a directed path to, or from, the one matching node, and
      the selected edges those between two such ids. */
  lemma SelectionIsReachability(g: Graph, target: string, up: bool, id: string)
    requires Names(g, target, id)
    ensures Selecting(g, target, up).Selected? && Selecting(g, target, up).target == id
    ensures forall n :: n in Selecting(g, target, up).graph.nodes <==> n in g.nodes && Linked(g.edges, up, id, n.id)
    ensures forall e :: e in Selecting(g, target, up).graph.edges <==>
              e in g.edges && Linked(g.edges, up, id, e.from) && Linked(g.edges, up, id, e.to)
  {
    hide Linked, Matches;
    var relatives := Relatives(g, id, up);
    assert Selecting(g, target, up) == Selected(id, Restrict(g, relatives));
    NodesInMembers(g.nodes, relatives);
    EdgesInMembers(g.edges, relatives);
  }

  /** The two directions are dual. */
  lemma AncestorsAndDescendantsAreDual(g: Graph, a: string, b: string, m: Node, n: Node)
    requires Names(g, a, m.id) && Names(g, b, n.id) && m in g.nodes && n in g.nodes
    ensures n in Selecting(g, a, true).graph.nodes <==> m in Selecting(g, b, false).graph.nodes
  {
    hide Selecting, Names;
    SelectionIsReachability(g, a, true, m.id);
    SelectionIsReachability(g, b, false, n.id);
  }

  // ----- Selecting twice -----

  lemma {:induction false} NodesInTwice(nodes: seq<Node>, small: set<string>, big: set<string>)
    requires small <= big
    ensures NodesIn(NodesIn(nodes, small), big) == NodesIn(nodes, small)
  {
    if nodes != [] {
      var front, n := nodes[..|nodes| - 1], nodes[|nodes| - 1];
      NodesInTwice(front, small, big);
      var part := NodesIn(front, small);
      assert (part + [n])[..|part|] == part;
    }
  }

  lemma {:induction false} EdgesInTwice(edges: seq<Edge>, small: set<string>, big: set<string>)
    requires small <= big
    ensures EdgesIn(EdgesIn(edges, small), big) == EdgesIn(edges, small)
  {
    if edges != [] {
      var front, e := edges[..|edges| - 1], edges[|edges| - 1];
      EdgesInTwice(front, small, big);
      var part := EdgesIn(front, small);
      assert (part + [e])[..|part|] == part;
    }
  }

  /** A path to or from the target stays among its relatives, so it survives the restriction. */
  lemma LinkedSurvives(g: Graph, target: string, up: bool, x: string)
    requires Linked(g.edges, up, target, x)
    ensures Linked(Restrict(g, Relatives(g, target, up)).edges, up, target, x)
  {
    var relatives := Relatives(g, target, up);
    var sub := Restrict(g, relatives).edges;
    var a, b := if up then x else target, if up then target else x;
    var p :| Joins(g.edges, p, a, b);
    EdgesInMembers(g.edges, relatives);
    RelativesAreClosed(g, target, up);
    ReachesItself(g.edges, target);
    ClosedHasPath(g.edges, up, relatives, p);
    forall i | 0 <= i < |p| - 1 ensures Edge(p[i], p[i + 1]) in sub {
      assert p[i] in relatives && p[i + 1] in relatives && Edge(p[i], p[i + 1]) in g.edges;
    }
    assert Joins(sub, p, a, b);
  }

  lemma RelativesAreClosed(g: Graph, target: string, up: bool)
    ensures ClosedUnder(g.edges, up, Relatives(g, target, up))
  {
    hide Linked;
    forall i | 0 <= i < |g.edges| && Entry(g.edges[i], up) in Relatives(g, target, up)
      ensures Exit(g.edges[i], up) in Relatives(g, target, up)
    {
      LinkedGoesOn(g.edges, up, target, g.edges[i]);
    }
  }

  lemma {:induction false} NodeOfFiltered(nodes: seq<Node>, selected: set<string>, id: string)
    ensures NodeOf(NodesIn(nodes, selected), id) == if id in selected then NodeOf(nodes, id) else None
  {
    if nodes != [] {
      var front, n := nodes[..|nodes| - 1], nodes[|nodes| - 1];
      NodeOfFiltered(front, selected, id);
      var part := NodesIn(front, selected);
      assert (part + [n])[..|part|] == part;
    }
  }

  lemma MatchIsListed(nodes: seq<Node>, id: string, target: string)
    ensures id in Matches(nodes, target) <==> IsMatch(nodes, id, target)
  {
    if NodeOf(nodes, id).Some? {
      NodeIsListed(nodes, id);
    }
  }

  lemma {:induction false} NodeIsListed(nodes: seq<Node>, id: string)
    requires NodeOf(nodes, id).Some?
    ensures exists i :: 0 <= i < |nodes| && nodes[i].id == id
  {
    if nodes[|nodes| - 1].id != id {
      NodeIsListed(nodes[..|nodes| - 1], id);
      var i :| 0 <= i < |nodes| - 1 && nodes[..|nodes| - 1][i].id == id;
      assert nodes[i].id == id;
    }
  }

  /** Selecting again, with the same name, from a selection changes nothing. */
  lemma SelectingIsIdempotent(g: Graph, target: string, up: bool, id: string)
    requires Names(g, target, id)
    ensures Selecting(Selecting(g, target, up).graph, target, up) == Selecting(g, target, up)
  {
    hide Linked, Matches, NodeOf;
    var relatives := Relatives(g, id, up);
    var sub := Restrict(g, relatives);
    assert Linked(g.edges, up, id, id) by { ItselfLinked(g.edges, up, id); }
    SelectionIsReachability(g, target, up, id);
    assert Selecting(g, target, up) == Selected(id, sub);
    SameMatches(g, relatives, target, id);
    assert Selecting(sub, target, up) == Selected(id, Restrict(sub, Relatives(sub, id, up)));
    SameRelatives(g, id, up);
    NodesInTwice(g.nodes, relatives, Relatives(sub, id, up));
    EdgesInTwice(g.edges, relatives, Relatives(sub, id, up));
  }

  lemma ItselfLinked(edges: seq<Edge>, up: bool, id: string)
    ensures Linked(edges, up, id, id)
  {
    ReachesItself(edges, id);
  }

  lemma SameRelatives(g: Graph, id: string, up: bool)
    ensures Relatives(g, id, up) <= Relatives(Restrict(g, Relatives(g, id, up)), id, up)
  {
    hide Linked;
    forall x | x in Relatives(g, id, up) ensures x in Relatives(Restrict(g, Relatives(g, id, up)), id, up) {
      LinkedSurvives(g, id, up, x);
    }
  }

  lemma SameMatches(g: Graph, selected: set<string>, target: string, id: string)
    requires Names(g, target, id) && id in selected
    ensures Names(Restrict(g, selected), target, id)
  {
    hide NodeOf, Matches;
    var sub := Restrict(g, selected).nodes;
    forall x ensures x in Matches(sub, target) <==> x == id {
      MatchIsListed(g.nodes, x, target);
      MatchIsListed(sub, x, target);
      NodeOfFiltered(g.nodes, selected, x);
    }
  }
}
