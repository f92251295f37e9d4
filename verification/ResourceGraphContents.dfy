/** What an inventory leaves in the graph: said of the inventory itself, not of the order it is registered in
    (apps/api/src/modules/resources/resource-graph.service.ts). */
module ResourceGraphContents {
  import opened Wrappers
  import opened Text
  import opened Runs
  import opened UrnPrinters
  import opened ResourceGraphPlans
  import opened ResourceGraphLaws

  /** The columns that an inventory fills. */
  datatype Facts = Facts(provider: Provider, kind: Kind, name: string, health: Option<string>)

  datatype Link = Link(source: Key, target: Key, edge: EdgeType)

  /** The URN of a key, if its segments are accepted. The proofs take it as a parameter. */
  function Printed(k: Key): Option<string> {
    match BuildUrn(k)
    case Err(_) => None
    case Ok(urn) => Some(urn)
  }

  // ----- What a graph holds afterwards ----------------------------------------

  /** The row that a call at `now` leaves: seen now, unarchived, with its first sighting kept. */
  ghost predicate Holds(g: Graph, h: Graph, id: NodeId, now: int, f: Facts) {
    && id in h.nodes
    && h.nodes[id] == NodeRow(f.provider, f.kind, f.name, f.health,
                              if id in g.nodes then g.nodes[id].firstSeenAt else now, now, None)
  }

  ghost predicate HoldsKey(
    urn: Key -> Option<string>, g: Graph, h: Graph, org: Org, now: int, key: Key, f: Facts)
  {
    urn(key).Some? && Holds(g, h, (org, urn(key).value), now, f)
  }

  /** The last item of the same URN gives the node its columns. */
  ghost predicate RecordedAt<T>(
    urn: Key -> Option<string>, g: Graph, h: Graph, org: Org, now: int, xs: seq<T>, key: T -> Key, facts: T -> Facts,
    i: nat)
    requires i < |xs|
  {
    exists j :: i <= j < |xs| && urn(key(xs[j])) == urn(key(xs[i]))
      && (forall k :: j < k < |xs| ==> urn(key(xs[k])) != urn(key(xs[i])))
      && HoldsKey(urn, g, h, org, now, key(xs[i]), facts(xs[j]))
  }

  /** Every item of a list has its node, seen now; the last item of a URN gives it its columns. */
  ghost predicate Recorded<T>(
    urn: Key -> Option<string>, g: Graph, h: Graph, org: Org, now: int, xs: seq<T>, key: T -> Key, facts: T -> Facts)
  {
    forall i :: 0 <= i < |xs| ==> RecordedAt(urn, g, h, org, now, xs, key, facts, i)
  }

  /** Every other node is as it was. */
  ghost predicate OnlyNodes(urn: Key -> Option<string>, g: Graph, h: Graph, org: Org, keys: set<Key>) {
    forall id: NodeId :: (id.0 == org ==> forall k :: k in keys ==> urn(k) != Some(id.1)) ==>
      (id in h.nodes <==> id in g.nodes) && (id in g.nodes ==> h.nodes[id] == g.nodes[id])
  }

  ghost predicate Joins(urn: Key -> Option<string>, org: Org, l: Link, e: EdgeId) {
    && urn(l.source) == Some(e.0.1) && urn(l.target) == Some(e.1.1)
    && e.0.0 == org && e.1.0 == org && e.2 == l.edge
  }

  /** Exactly these links are edges seen now; every other edge is as it was. */
  ghost predicate LinkedExactly(
    urn: Key -> Option<string>, g: Graph, h: Graph, org: Org, now: int, links: set<Link>)
  {
    && (forall l :: l in links ==> urn(l.source).Some? && urn(l.target).Some?)
    && (forall l, e :: l in links && Joins(urn, org, l, e) ==>
         e in h.edges && h.edges[e] == EdgeRow(if e in g.edges then g.edges[e].firstSeenAt else now, now, None))
    && (forall e :: (forall l :: l in links ==> !Joins(urn, org, l, e)) ==>
         (e in h.edges <==> e in g.edges) && (e in g.edges ==> h.edges[e] == g.edges[e]))
  }

  // ----- What actions leave ---------------------------------------------------

  /** The last node that the actions write under a URN. */
  ghost function LastPut(urn: Key -> Option<string>, acts: seq<Action>, u: string): Option<Facts> {
    if acts == [] then None
    else
      var a := acts[|acts| - 1];
      if a.PutNode? && urn(a.key) == Some(u) then Some(Facts(a.provider, a.kind, a.name, a.health))
      else LastPut(urn, acts[..|acts| - 1], u)
  }

  ghost function Links(acts: seq<Action>): set<Link> {
    set i | 0 <= i < |acts| && acts[i].PutEdge? :: Link(acts[i].source, acts[i].target, acts[i].edge)
  }

  ghost predicate NodesAre(urn: Key -> Option<string>, g: Graph, h: Graph, org: Org, now: int, acts: seq<Action>) {
    forall id: NodeId ::
      match if id.0 == org then LastPut(urn, acts, id.1) else None
      case None => (id in h.nodes <==> id in g.nodes) && (id in g.nodes ==> h.nodes[id] == g.nodes[id])
      case Some(f) => Holds(g, h, id, now, f)
  }

  ghost predicate PutsPrint(urn: Key -> Option<string>, acts: seq<Action>) {
    forall i :: 0 <= i < |acts| && acts[i].PutNode? ==> urn(acts[i].key).Some?
  }

  lemma LinksOneMore(acts: seq<Action>, a: Action)
    ensures Links(acts + [a]) == Links(acts) + if a.PutEdge? then {Link(a.source, a.target, a.edge)} else {}
  {
    var all := acts + [a];
    assert all[|acts|] == a;
    forall l | l in Links(acts) ensures l in Links(all) {
      var i :| 0 <= i < |acts| && acts[i].PutEdge? && l == Link(acts[i].source, acts[i].target, acts[i].edge);
      assert all[i] == acts[i];
    }
  }

  /** What one action leaves, told by the URNs of its keys. */
  ghost predicate Acted(urn: Key -> Option<string>, m: Graph, h: Graph, org: Org, now: int, a: Action) {
    match a
    case Throw(_) => false
    case PutNode(key, provider, kind, name, health) =>
      && urn(key).Some? && h.edges == m.edges
      && h == WithNode(m, (org, urn(key).value), provider, kind, name, health, now)
    case PutEdge(source, target, edge) =>
      && urn(source).Some? && urn(target).Some?
      && WithEdge(m, org, ((org, urn(source).value), (org, urn(target).value), edge), now) == Ok(h)
  }

  lemma ActIsActed(m: Graph, org: Org, now: int, a: Action)
    requires Act(m, org, now, a).Ok?
    ensures Acted(Printed, m, Act(m, org, now, a).value, org, now, a)
  {
  }

  lemma NodesOneMore(
    urn: Key -> Option<string>, g: Graph, m: Graph, h: Graph, org: Org, now: int, acts: seq<Action>, a: Action)
    requires NodesAre(urn, g, m, org, now, acts) && Acted(urn, m, h, org, now, a)
    ensures NodesAre(urn, g, h, org, now, acts + [a])
  {
    var all := acts + [a];
    assert all[..|acts|] == acts && all[|acts|] == a;
    forall id: NodeId
      ensures match if id.0 == org then LastPut(urn, all, id.1) else None
        case None => (id in h.nodes <==> id in g.nodes) && (id in g.nodes ==> h.nodes[id] == g.nodes[id])
        case Some(f) => Holds(g, h, id, now, f)
    {
      assert LastPut(urn, all, id.1) ==
        if a.PutNode? && urn(a.key) == Some(id.1) then Some(Facts(a.provider, a.kind, a.name, a.health))
        else LastPut(urn, acts, id.1);
    }
  }

  lemma EdgeOneMore(
    urn: Key -> Option<string>, g: Graph, m: Graph, h: Graph, org: Org, now: int, links: set<Link>, one: Link,
    id: EdgeId)
    requires LinkedExactly(urn, g, m, org, now, links) && Joins(urn, org, one, id)
    requires h.edges == m.edges[id := EdgeRow(if id in m.edges then m.edges[id].firstSeenAt else now, now, None)]
    ensures LinkedExactly(urn, g, h, org, now, links + {one})
  {
    assert forall e: EdgeId :: Joins(urn, org, one, e) <==> e == id;
    forall e | forall l :: l in links + {one} ==> !Joins(urn, org, l, e)
      ensures (e in h.edges <==> e in g.edges) && (e in g.edges ==> h.edges[e] == g.edges[e])
    {
      assert one in links + {one};
      assert forall l :: l in links ==> l in links + {one};
    }
  }

  lemma EdgesOneMore(
    urn: Key -> Option<string>, g: Graph, m: Graph, h: Graph, org: Org, now: int, links: set<Link>, a: Action)
    requires LinkedExactly(urn, g, m, org, now, links) && Acted(urn, m, h, org, now, a)
    ensures LinkedExactly(urn, g, h, org, now,
      links + if a.PutEdge? then {Link(a.source, a.target, a.edge)} else {})
  {
    if a.PutEdge? {
      var id: EdgeId := ((org, urn(a.source).value), (org, urn(a.target).value), a.edge);
      EdgeOneMore(urn, g, m, h, org, now, links, Link(a.source, a.target, a.edge), id);
    } else {
      assert links + {} == links;
    }
  }

  /** A plan that ends without an error leaves its nodes and its links, and nothing else. */
  lemma {:induction false} LeftBehind(g: Graph, org: Org, now: int, acts: seq<Action>, h: Graph)
    requires Perform(Actor(org, now), g, acts) == (h, None)
    ensures NodesAre(Printed, g, h, org, now, acts) && LinkedExactly(Printed, g, h, org, now, Links(acts))
    ensures PutsPrint(Printed, acts)
    decreases |acts|
  {
    if acts != [] {
      var n := |acts| - 1;
      var first, a := acts[..n], acts[n];
      assert acts == first + [a];
      PerformConcat(Actor(org, now), g, first, [a]);
      var m := Perform(Actor(org, now), g, first).0;
      PerformOne(Actor(org, now), m, a);
      LeftBehind(g, org, now, first, m);
      ActIsActed(m, org, now, a);
      NodesOneMore(Printed, g, m, h, org, now, first, a);
      EdgesOneMore(Printed, g, m, h, org, now, Links(first), a);
      LinksOneMore(first, a);
    } else {
      assert Links(acts) == {};
    }
  }

  // ----- Through a plan -------------------------------------------------------

  function OrElseFacts(later: Option<Facts>, earlier: Option<Facts>): Option<Facts> {
    if later.Some? then later else earlier
  }

  lemma {:induction false} LastPutConcat(urn: Key -> Option<string>, a: seq<Action>, b: seq<Action>, u: string)
    ensures LastPut(urn, a + b, u) == OrElseFacts(LastPut(urn, b, u), LastPut(urn, a, u))
    decreases |b|
  {
    if b == [] {
      assert a + b == a;
    } else {
      assert (a + b)[..|a + b| - 1] == a + b[..|b| - 1];
      LastPutConcat(urn, a, b[..|b| - 1], u);
    }
  }

  /** The last item of a list that is printed to a URN. */
  ghost function LastOf<T>(urn: Key -> Option<string>, xs: seq<T>, key: T -> Key, facts: T -> Facts, u: string)
    : Option<Facts>
  {
    if xs == [] then None
    else if urn(key(xs[|xs| - 1])) == Some(u) then Some(facts(xs[|xs| - 1]))
    else LastOf(urn, xs[..|xs| - 1], key, facts, u)
  }

  /** One turn of a loop writes this node under `u`, if any. */
  ghost predicate TurnPuts<T>(
    urn: Key -> Option<string>, x: T, f: T -> seq<Action>, key: T -> Key, facts: T -> Facts, u: string)
  {
    LastPut(urn, f(x), u) == if urn(key(x)) == Some(u) then Some(facts(x)) else None
  }

  lemma {:induction false} EachPut<T>(
    urn: Key -> Option<string>, xs: seq<T>, f: T -> seq<Action>, key: T -> Key, facts: T -> Facts, u: string)
    requires forall i :: 0 <= i < |xs| ==> TurnPuts(urn, xs[i], f, key, facts, u)
    ensures LastPut(urn, Each(xs, f), u) == LastOf(urn, xs, key, facts, u)
  {
    if xs != [] {
      var n := |xs| - 1;
      assert forall i :: 0 <= i < n ==> xs[..n][i] == xs[i];
      EachPut(urn, xs[..n], f, key, facts, u);
      LastPutConcat(urn, Each(xs[..n], f), f(xs[n]), u);
      assert TurnPuts(urn, xs[n], f, key, facts, u);
    }
  }

  lemma {:induction false} LastOfConcat<T>(
    urn: Key -> Option<string>, a: seq<T>, b: seq<T>, key: T -> Key, facts: T -> Facts, u: string)
    ensures LastOf(urn, a + b, key, facts, u) ==
      OrElseFacts(LastOf(urn, b, key, facts, u), LastOf(urn, a, key, facts, u))
    decreases |b|
  {
    if b == [] {
      assert a + b == a;
    } else {
      assert (a + b)[..|a + b| - 1] == a + b[..|b| - 1];
      LastOfConcat(urn, a, b[..|b| - 1], key, facts, u);
    }
  }

  lemma {:induction false} LastOfNone<T>(
    urn: Key -> Option<string>, xs: seq<T>, key: T -> Key, facts: T -> Facts, u: string)
    requires forall i :: 0 <= i < |xs| ==> urn(key(xs[i])) != Some(u)
    ensures LastOf(urn, xs, key, facts, u) == None
  {
    if xs != [] {
      LastOfNone(urn, xs[..|xs| - 1], key, facts, u);
    }
  }

  /** The last of them is the item or one after it. */
  lemma {:induction false} LastOfFrom<T>(
    urn: Key -> Option<string>, xs: seq<T>, key: T -> Key, facts: T -> Facts, u: string, i: nat) returns (j: nat)
    requires i < |xs| && urn(key(xs[i])) == Some(u)
    ensures i <= j < |xs| && urn(key(xs[j])) == Some(u) && LastOf(urn, xs, key, facts, u) == Some(facts(xs[j]))
    ensures forall k :: j < k < |xs| ==> urn(key(xs[k])) != Some(u)
    decreases |xs|
  {
    var n := |xs| - 1;
    if urn(key(xs[n])) == Some(u) {
      j := n;
    } else {
      j := LastOfFrom(urn, xs[..n], key, facts, u, i);
      assert forall k :: 0 <= k < n ==> xs[..n][k] == xs[k];
    }
  }

  /** Under the item's URN the actions leave what the list says. */
  ghost predicate LeavesList<T>(
    urn: Key -> Option<string>, acts: seq<Action>, xs: seq<T>, key: T -> Key, facts: T -> Facts, x: T)
  {
    urn(key(x)).Some? && LastPut(urn, acts, urn(key(x)).value) == LastOf(urn, xs, key, facts, urn(key(x)).value)
  }

  lemma ListIsRecorded<T>(
    urn: Key -> Option<string>, g: Graph, h: Graph, org: Org, now: int, acts: seq<Action>, xs: seq<T>, key: T -> Key,
    facts: T -> Facts)
    requires NodesAre(urn, g, h, org, now, acts)
    requires forall i :: 0 <= i < |xs| ==> LeavesList(urn, acts, xs, key, facts, xs[i])
    ensures Recorded(urn, g, h, org, now, xs, key, facts)
  {
    forall i | 0 <= i < |xs| ensures RecordedAt(urn, g, h, org, now, xs, key, facts, i) {
      assert LeavesList(urn, acts, xs, key, facts, xs[i]);
      var u := urn(key(xs[i])).value;
      var j := LastOfFrom(urn, xs, key, facts, u, i);
      var id: NodeId := (org, u);
      assert Holds(g, h, id, now, facts(xs[j]));
    }
  }

  // ----- Links and keys through a plan ----------------------------------------

  lemma LinksConcat(a: seq<Action>, b: seq<Action>)
    ensures Links(a + b) == Links(a) + Links(b)
  {
    var all := a + b;
    forall l | l in Links(a) + Links(b) ensures l in Links(all) {
      if l in Links(a) {
        var i :| 0 <= i < |a| && a[i].PutEdge? && l == Link(a[i].source, a[i].target, a[i].edge);
        assert all[i] == a[i];
      } else {
        var i :| 0 <= i < |b| && b[i].PutEdge? && l == Link(b[i].source, b[i].target, b[i].edge);
        assert all[|a| + i] == b[i];
      }
    }
  }

  lemma {:induction false} EachLinks<T>(xs: seq<T>, f: T -> seq<Action>)
    ensures forall l :: l in Links(Each(xs, f)) <==> exists i :: 0 <= i < |xs| && l in Links(f(xs[i]))
  {
    if xs != [] {
      var n := |xs| - 1;
      EachLinks(xs[..n], f);
      LinksConcat(Each(xs[..n], f), f(xs[n]));
      assert forall i :: 0 <= i < n ==> xs[..n][i] == xs[i];
    } else {
      assert Links(Each(xs, f)) == {};
    }
  }

  lemma {:induction false} EachWritten<T>(xs: seq<T>, f: T -> seq<Action>)
    ensures forall k :: k in Written(Each(xs, f)) <==> exists i :: 0 <= i < |xs| && k in Written(f(xs[i]))
  {
    if xs != [] {
      var n := |xs| - 1;
      EachWritten(xs[..n], f);
      WrittenConcat(Each(xs[..n], f), f(xs[n]));
      assert forall i :: 0 <= i < n ==> xs[..n][i] == xs[i];
    } else {
      assert Written(Each(xs, f)) == {};
    }
  }

  lemma {:induction false} NothingPut(urn: Key -> Option<string>, acts: seq<Action>, u: string)
    requires forall k :: k in Written(acts) ==> urn(k) != Some(u)
    ensures LastPut(urn, acts, u) == None
  {
    if acts != [] {
      var n := |acts| - 1;
      assert acts[n].PutNode? ==> acts[n].key in Written(acts);
      assert forall k :: k in Written(acts[..n]) ==> k in Written(acts);
      NothingPut(urn, acts[..n], u);
    }
  }

  lemma OnlyWritten(urn: Key -> Option<string>, g: Graph, h: Graph, org: Org, now: int, acts: seq<Action>)
    requires NodesAre(urn, g, h, org, now, acts)
    ensures OnlyNodes(urn, g, h, org, Written(acts))
  {
    forall id: NodeId | id.0 == org ==> forall k :: k in Written(acts) ==> urn(k) != Some(id.1)
      ensures (id in h.nodes <==> id in g.nodes) && (id in g.nodes ==> h.nodes[id] == g.nodes[id])
    {
      if id.0 == org {
        NothingPut(urn, acts, id.1);
      }
    }
  }

  // ----- Turns ----------------------------------------------------------------

  lemma NodePut(urn: Key -> Option<string>, node: Action, u: string)
    requires node.PutNode?
    ensures LastPut(urn, [node], u) ==
      if urn(node.key) == Some(u) then Some(Facts(node.provider, node.kind, node.name, node.health)) else None
    ensures Links([node]) == {} && Written([node]) == {node.key}
  {
    assert [node][..0] == [];
    assert [node][0] == node;
  }

  lemma EdgePut(urn: Key -> Option<string>, edge: Action, u: string)
    requires edge.PutEdge?
    ensures LastPut(urn, [edge], u) == None
    ensures Links([edge]) == {Link(edge.source, edge.target, edge.edge)} && Written([edge]) == {}
  {
    assert [edge][..0] == [];
    assert [edge][0] == edge;
  }

  /** A node, and an edge to it when it has a parent. */
  lemma PairPut(urn: Key -> Option<string>, node: Action, edges: seq<Action>, u: string)
    requires node.PutNode? && |edges| <= 1 && (edges != [] ==> edges[0].PutEdge?)
    ensures LastPut(urn, [node] + edges, u) ==
      if urn(node.key) == Some(u) then Some(Facts(node.provider, node.kind, node.name, node.health)) else None
    ensures Links([node] + edges) ==
      if edges == [] then {} else {Link(edges[0].source, edges[0].target, edges[0].edge)}
    ensures Written([node] + edges) == {node.key}
  {
    NodePut(urn, node, u);
    LastPutConcat(urn, [node], edges, u);
    LinksConcat([node], edges);
    WrittenConcat([node], edges);
    if edges == [] {
      assert Links(edges) == {} && Written(edges) == {};
    } else {
      assert edges == [edges[0]];
      EdgePut(urn, edges[0], u);
    }
  }

  /** A URN that only keys of one kind, builds aside, are printed to. */
  ghost predicate OfKind(urn: Key -> Option<string>, u: string, kind: Kind) {
    forall k :: urn(k) == Some(u) && !k.JenkinsBuild? ==> KindOf(k) == kind
  }

  lemma KindOfPrinted(k: Key)
    requires !k.JenkinsBuild? && Printed(k).Some?
    ensures UrnKind(Printed(k).value) == Some(KindOf(k))
  {
    KindOfUrn(k);
  }

  /** `kindOf` tells the kind of a key from what is printed. */
  ghost predicate Tells(urn: Key -> Option<string>, kindOf: string -> Option<Kind>) {
    forall k :: urn(k).Some? && !k.JenkinsBuild? ==> kindOf(urn(k).value) == Some(KindOf(k))
  }

  lemma PrintedTells()
    ensures Tells(Printed, UrnKind)
  {
    forall k | Printed(k).Some? && !k.JenkinsBuild? ensures UrnKind(Printed(k).value) == Some(KindOf(k)) {
      KindOfPrinted(k);
    }
  }

  lemma TellsKind(urn: Key -> Option<string>, kindOf: string -> Option<Kind>, key: Key, u: string)
    requires Tells(urn, kindOf) && !key.JenkinsBuild? && urn(key) == Some(u)
    ensures OfKind(urn, u, KindOf(key))
  {
  }

  // ----- Sets of links and keys -----------------------------------------------

  lemma EachLink<T>(xs: seq<T>, f: T -> seq<Action>, when: T -> bool, link: T -> Link)
    requires forall i :: 0 <= i < |xs| ==> Links(f(xs[i])) == if when(xs[i]) then {link(xs[i])} else {}
    ensures Links(Each(xs, f)) == set x | x in xs && when(x) :: link(x)
  {
    EachLinks(xs, f);
    forall l ensures l in Links(Each(xs, f)) <==> l in (set x | x in xs && when(x) :: link(x)) {
      if l in Links(Each(xs, f)) {
        var i :| 0 <= i < |xs| && l in Links(f(xs[i]));
        assert xs[i] in xs;
      }
      if l in (set x | x in xs && when(x) :: link(x)) {
        var x :| x in xs && when(x) && l == link(x);
        var i :| 0 <= i < |xs| && xs[i] == x;
        assert l in Links(f(xs[i]));
      }
    }
  }

  lemma EachKey<T>(xs: seq<T>, f: T -> seq<Action>, key: T -> Key)
    requires forall i :: 0 <= i < |xs| ==> Written(f(xs[i])) == {key(xs[i])}
    ensures Written(Each(xs, f)) == set x | x in xs :: key(x)
  {
    EachWritten(xs, f);
    forall k ensures k in Written(Each(xs, f)) <==> k in (set x | x in xs :: key(x)) {
      if k in Written(Each(xs, f)) {
        var i :| 0 <= i < |xs| && k in Written(f(xs[i]));
        assert xs[i] in xs;
      }
      if k in (set x | x in xs :: key(x)) {
        var x :| x in xs && k == key(x);
        var i :| 0 <= i < |xs| && xs[i] == x;
        assert k in Written(f(xs[i]));
      }
    }
  }

  // ----- Loops that put one node a turn ---------------------------------------

  function NodeAction(key: Key, f: Facts): Action {
    PutNode(key, f.provider, f.kind, f.name, f.health)
  }

  function EdgeAction(l: Link): Action {
    PutEdge(l.source, l.target, l.edge)
  }

  /** Every turn puts the item's node, and then the item's link if it has one. */
  ghost predicate Pairs<T>(
    xs: seq<T>, f: T -> seq<Action>, key: T -> Key, facts: T -> Facts, when: T -> bool, link: T -> Link)
  {
    forall i :: 0 <= i < |xs| ==>
      f(xs[i]) == [NodeAction(key(xs[i]), facts(xs[i]))] + if when(xs[i]) then [EdgeAction(link(xs[i]))] else []
  }

  lemma PairsPut<T>(
    urn: Key -> Option<string>, xs: seq<T>, f: T -> seq<Action>, key: T -> Key, facts: T -> Facts, when: T -> bool,
    link: T -> Link, u: string)
    requires Pairs(xs, f, key, facts, when, link)
    ensures LastPut(urn, Each(xs, f), u) == LastOf(urn, xs, key, facts, u)
  {
    forall i | 0 <= i < |xs| ensures TurnPuts(urn, xs[i], f, key, facts, u) {
      PairPut(urn, NodeAction(key(xs[i]), facts(xs[i])), if when(xs[i]) then [EdgeAction(link(xs[i]))] else [], u);
    }
    EachPut(urn, xs, f, key, facts, u);
  }

  lemma PairsLeave<T>(
    xs: seq<T>, f: T -> seq<Action>, key: T -> Key, facts: T -> Facts, when: T -> bool, link: T -> Link)
    requires Pairs(xs, f, key, facts, when, link)
    ensures Links(Each(xs, f)) == set x | x in xs && when(x) :: link(x)
    ensures Written(Each(xs, f)) == set x | x in xs :: key(x)
  {
    var none: Key -> Option<string> := (key: Key) => None;
    forall i | 0 <= i < |xs|
      ensures Links(f(xs[i])) == if when(xs[i]) then {link(xs[i])} else {}
      ensures Written(f(xs[i])) == {key(xs[i])}
    {
      PairPut(none, NodeAction(key(xs[i]), facts(xs[i])), if when(xs[i]) then [EdgeAction(link(xs[i]))] else [], "");
    }
    EachLink(xs, f, when, link);
    EachKey(xs, f, key);
  }

  /** Items of another kind are not printed to a URN of this kind. */
  lemma OtherKind<T>(
    urn: Key -> Option<string>, xs: seq<T>, key: T -> Key, facts: T -> Facts, u: string, kind: Kind, other: Kind)
    requires OfKind(urn, u, kind)
    requires forall i :: 0 <= i < |xs| ==> !key(xs[i]).JenkinsBuild? && KindOf(key(xs[i])) == other
    ensures kind != other ==> LastOf(urn, xs, key, facts, u) == None
  {
    if kind != other {
      LastOfNone(urn, xs, key, facts, u);
    }
  }

  function Slug(given: Option<string>, default: string): string {
    match given
    case None => default
    case Some(slug) => slug
  }

  // ----- Lists of one kind ----------------------------------------------------

  ghost function KeysOf<T>(xs: seq<T>, key: T -> Key): set<Key> {
    set x | x in xs :: key(x)
  }

  lemma KeysOfConcat<T>(a: seq<T>, b: seq<T>, key: T -> Key)
    ensures KeysOf(a + b, key) == KeysOf(a, key) + KeysOf(b, key)
  {
    assert forall x :: x in a + b <==> x in a || x in b;
  }

  ghost predicate AllOfKind<T>(xs: seq<T>, key: T -> Key, kind: Kind) {
    forall i :: 0 <= i < |xs| ==> !key(xs[i]).JenkinsBuild? && KindOf(key(xs[i])) == kind
  }

  /** Under the URNs of a kind the actions leave what this list says. */
  ghost predicate LeavesKind<T>(
    urn: Key -> Option<string>, acts: seq<Action>, xs: seq<T>, key: T -> Key, facts: T -> Facts, kind: Kind)
  {
    forall u: string :: OfKind(urn, u, kind) ==> LastPut(urn, acts, u) == LastOf(urn, xs, key, facts, u)
  }

  /** What a plan leaves, with its printer as a parameter. */
  ghost predicate Left(
    urn: Key -> Option<string>, kindOf: string -> Option<Kind>, g: Graph, h: Graph, org: Org, now: int,
    acts: seq<Action>)
  {
    NodesAre(urn, g, h, org, now, acts) && PutsPrint(urn, acts) && Tells(urn, kindOf)
  }

  /** A plan leaves one node with these columns. */
  ghost predicate LeavesOne(urn: Key -> Option<string>, acts: seq<Action>, key: Key, f: Facts) {
    && key in Written(acts) && !key.JenkinsBuild?
    && forall u: string :: OfKind(urn, u, KindOf(key)) && urn(key) == Some(u) ==> LastPut(urn, acts, u) == Some(f)
  }

  lemma OneIsRecorded(
    urn: Key -> Option<string>, kindOf: string -> Option<Kind>, g: Graph, h: Graph, org: Org, now: int,
    acts: seq<Action>, key: Key, f: Facts)
    requires Left(urn, kindOf, g, h, org, now, acts) && LeavesOne(urn, acts, key, f)
    ensures HoldsKey(urn, g, h, org, now, key, f)
  {
    var j :| 0 <= j < |acts| && acts[j].PutNode? && acts[j].key == key;
    TellsKind(urn, kindOf, key, urn(key).value);
    var id: NodeId := (org, urn(key).value);
    assert Holds(g, h, id, now, f);
  }

  /** A plan leaves a list under the URNs of its kind. */
  ghost predicate LeavesAll<T>(
    urn: Key -> Option<string>, acts: seq<Action>, xs: seq<T>, key: T -> Key, facts: T -> Facts, kind: Kind)
  {
    KeysOf(xs, key) <= Written(acts) && AllOfKind(xs, key, kind) && LeavesKind(urn, acts, xs, key, facts, kind)
  }

  /** A list of one kind is recorded when the plan leaves it under the URNs of that kind. */
  lemma KindIsRecorded<T>(
    urn: Key -> Option<string>, kindOf: string -> Option<Kind>, g: Graph, h: Graph, org: Org, now: int,
    acts: seq<Action>, xs: seq<T>, key: T -> Key, facts: T -> Facts, kind: Kind)
    requires Left(urn, kindOf, g, h, org, now, acts) && LeavesAll(urn, acts, xs, key, facts, kind)
    ensures Recorded(urn, g, h, org, now, xs, key, facts)
  {
    forall i | 0 <= i < |xs| ensures LeavesList(urn, acts, xs, key, facts, xs[i]) {
      assert xs[i] in xs && key(xs[i]) in KeysOf(xs, key);
      var j :| 0 <= j < |acts| && acts[j].PutNode? && acts[j].key == key(xs[i]);
      TellsKind(urn, kindOf, key(xs[i]), urn(key(xs[i])).value);
    }
    ListIsRecorded(urn, g, h, org, now, acts, xs, key, facts);
  }

  function Always<T>(): T -> bool {
    (x: T) => true
  }
}
