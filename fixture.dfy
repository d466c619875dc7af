/**
 * The sample diagram of src/data.ts: node B.T.1 names a template that does
 * not exist, and so does the link B.T.1 -> B.T.2; the link B.T.0 -> B.T.1
 * is still drawn, because both of its endpoint nodes exist.
 */
module Fixture {
  import opened Wrappers
  import opened Schema
  import opened Geometry
  import opened Registry
  import opened Scene

  const CirclePaint := Paint("#fff", "#003366", 3.0)

  const Templates: seq<Template> := [
    NodeT("B.T.0", "Bendung Tabo Tabo", [Field("type", "type", "string", Str("bendung"))],
          [NodeObject("circle", CirclePaint, Some(100.0), Some(100.0), Some(50.0), None, None)]),
    LinkT("L.T.0", "Link Tabo Tabo", Some("arrow"), Some(10.0), Some(10.0), Some("solid"), Some(3.0), Some(true))
  ]

  const Nodes: seq<Node> := [
    Node("B.T.0", "Bendung Tabo Tabo", "bottom", 100.0, 100.0, "B.T.0"),
    Node("B.T.1", "T.1 ka", "bottom", 100.0, 200.0, "B.T.1"),
    Node("B.T.2", "T.2 ki", "bottom", 100.0, 300.0, "B.T.2")
  ]

  const Links: seq<Link> := [
    Link("B.T.0", "B.T.1", "L.T.0"),
    Link("B.T.1", "B.T.2", "L.T.1")
  ]

  const DrawnLink := LinkGroup(Point(100.0, 100.0), Point(100.0, 200.0), Stroke(LineColor, 3.0, None),
                               Some(Arrow(Point(100.0, 100.0), Point(100.0, 200.0), 10.0, ArrowFill)))

  const DrawnNode := NodeGroup([Circle(Point(100.0, 100.0), 50.0, CirclePaint)],
                               Label(Point(100.0, 125.0), 12.0, Middle, "#000", Some("500"), "Bendung Tabo Tabo"))

  /** A "bottom" label sits 25 below its point, centred. */
  lemma BottomLabel(p: Point, dir: string)
    requires dir == "bottom"
    ensures LabelPosition(p, dir, None) == Point(p.x, p.y + DefaultLabelOffset)
    ensures TextAnchor(dir) == Middle
  {
    ShiftBottom(dir);
    LabelShift(p, dir, None);
  }

  /** B.T.0 -> B.T.1 is drawn solid, 3 wide, with an arrow, although B.T.1 itself is not drawn. */
  lemma SampleLinkDrawn()
    ensures ComposeLink(Templates, Nodes, Links[0]) == Some(DrawnLink)
  {
    assert FirstNode(Nodes, "B.T.0", 0);
    assert FirstNode(Nodes, "B.T.1", 1);
    assert FirstMatch(Templates, "L.T.0", LinkKind, 1);
  }

  /** B.T.1 -> B.T.2 names the missing link template L.T.1 and is skipped. */
  lemma SampleLinkSkipped()
    ensures ComposeLink(Templates, Nodes, Links[1]).None?
  {
    assert Templates[1..][1..] == [];
  }

  /** B.T.0 is a circle of radius 50 at its point, labelled 25 below, centred. */
  lemma SampleNodeDrawn()
    ensures ComposeNode(Templates, Nodes[0]) == Some(DrawnNode)
  {
    var n := Nodes[0];
    assert FirstMatch(Templates, "B.T.0", NodeKind, 0);
    BottomLabel(n.Pos(), n.labelDirection);
    assert Templates[0].objects[1..] == [];
    assert ShapesOf(Templates[0].objects, n.Pos()) == [Circle(Point(100.0, 100.0), 50.0, CirclePaint)];
  }

  /** B.T.1 and B.T.2 name missing node templates and are skipped. */
  lemma SampleNodesSkipped()
    ensures ComposeNode(Templates, Nodes[1]).None? && ComposeNode(Templates, Nodes[2]).None?
  {
    assert Templates[1..][1..] == [];
  }

  /** Composing a two-link list, link by link. */
  lemma TwoLinks(ts: seq<Template>, nodes: seq<Node>, a: Link, b: Link)
    ensures ComposeLinks(ts, nodes, [a, b]) == Present(ComposeLink(ts, nodes, a)) + Present(ComposeLink(ts, nodes, b))
  {
    assert [a, b] == [a] + [b];
    ComposeLinksAppend(ts, nodes, [a], [b]);
    ComposeLinksSingle(ts, nodes, a);
    ComposeLinksSingle(ts, nodes, b);
  }

  lemma SampleLinks()
    ensures ComposeLinks(Templates, Nodes, Links) == [DrawnLink]
  {
    SampleLinkDrawn();
    SampleLinkSkipped();
    TwoLinks(Templates, Nodes, Links[0], Links[1]);
  }

  /** Composing a three-node list, node by node. */
  lemma ThreeNodes(ts: seq<Template>, a: Node, b: Node, c: Node)
    ensures ComposeNodes(ts, [a, b, c]) == Present(ComposeNode(ts, a)) + Present(ComposeNode(ts, b)) + Present(ComposeNode(ts, c))
  {
    assert [a, b, c] == [a] + [b] + [c];
    ComposeNodesAppend(ts, [a] + [b], [c]);
    ComposeNodesAppend(ts, [a], [b]);
    ComposeNodesSingle(ts, a);
    ComposeNodesSingle(ts, b);
    ComposeNodesSingle(ts, c);
  }

  lemma SampleNodes()
    ensures ComposeNodes(Templates, Nodes) == [DrawnNode]
  {
    SampleNodeDrawn();
    SampleNodesSkipped();
    ThreeNodes(Templates, Nodes[0], Nodes[1], Nodes[2]);
  }

  /** The sample composes to one link group and one node group, and no text. */
  lemma SampleScene()
    ensures Compose(Templates, Nodes, Links, None) == [DrawnLink, DrawnNode]
  {
    SampleLinks();
    SampleNodes();
  }
}
