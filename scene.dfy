/**
 * The scene composer: from (templates, nodes, links, texts) to the ordered
 * list of SVG draw instructions, links first, then nodes, then free texts.
 */
module Scene {
  import opened Wrappers
  import opened Schema
  import opened Registry
  import opened Geometry

  const LineColor := "#003366"
  const DefaultLineWidth: real := 3.0
  const DashedPattern := "10,5"
  const DottedPattern := "2,3"
  const ArrowFill := "#003366"
  const DefaultArrowSize: real := 10.0
  const DefaultRadius: real := 15.0
  const DefaultRectSide: real := 30.0
  const NodeLabelFontSize: real := 12.0
  const NodeLabelFill := "#000"
  const NodeLabelWeight := "500"

  /** A drawn primitive; a triangle is drawn as a three-point polygon. */
  datatype Shape =
    | Circle(center: Point, radius: real, paint: Paint)
    | Rect(corner: Point, width: real, height: real, paint: Paint)
    | Polygon(points: seq<Point>, paint: Paint)

  datatype Stroke = Stroke(color: string, width: real, dashArray: Option<string>)

  /**
   * An arrowhead. Its polygon is trigonometry on floating point; the
   * instruction keeps what that polygon is computed from: the line's two
   * ends and the arrow width (the template's arrow height is read by the
   * source but never used).
   */
  datatype Arrow = Arrow(from: Point, to: Point, width: real, fill: string)

  /** An SVG `<text>` element. */
  datatype Label = Label(at: Point, fontSize: real, anchor: Anchor, fill: string, fontWeight: Option<string>, value: string)

  datatype Instr =
    | LinkGroup(from: Point, to: Point, stroke: Stroke, arrow: Option<Arrow>)
    | NodeGroup(shapes: seq<Shape>, text: Label)
    | FreeText(text: Label)

  /** The elements of a `.map` result that are not `null`. */
  function Present<T>(o: Option<T>): seq<T> {
    if o.Some? then [o.value] else []
  }

  // ---------------------------------------------------------------- links

  /** The dash pattern of a line type: "dashed" and "dotted" have one, anything else is solid. */
  function DashArray(lineType: Option<string>): (r: Option<string>)
    ensures r == Some(DashedPattern) <==> lineType == Some("dashed")
    ensures r == Some(DottedPattern) <==> lineType == Some("dotted")
    ensures r.None? <==> lineType != Some("dashed") && lineType != Some("dotted")
  {
    if lineType == Some("dashed") then Some(DashedPattern)
    else if lineType == Some("dotted") then Some(DottedPattern)
    else None
  }

  /** `!template.arrowType || template.arrowType === "none"` fails: a non-empty arrow type other than "none". */
  predicate HasArrow(t: Template): (b: bool)
    requires t.LinkT?
    ensures t.arrowType.None? || t.arrowType == Some("") || t.arrowType == Some("none") ==> !b
    ensures t.arrowType.Some? && |t.arrowType.value| > 0 && t.arrowType.value != "none" ==> b
  {
    t.arrowType.Some? && t.arrowType.value != "" && t.arrowType.value != "none"
  }

  /** The arrowhead of a link from `from` to `to`, if its template asks for one. */
  function ArrowOf(from: Point, to: Point, t: Template): (r: Option<Arrow>)
    requires t.LinkT?
    ensures r.Some? <==> HasArrow(t)
    ensures r.Some? ==> r.value.from == from && r.value.to == to && r.value.fill == ArrowFill
    ensures r.Some? ==> r.value.width == OrDefault(t.arrowWidth, DefaultArrowSize) && r.value.width != 0.0
  {
    if !HasArrow(t) then None
    else Some(Arrow(from, to, OrDefault(t.arrowWidth, DefaultArrowSize), ArrowFill))
  }

  /** The line from `a` to `b` drawn with link template `t`, and its arrowhead. */
  function LinkGroupOf(a: Point, b: Point, t: Template): (r: Instr)
    requires t.LinkT?
    ensures r.LinkGroup? && r.from == a && r.to == b
  {
    LinkGroup(a, b, Stroke(LineColor, OrDefault(t.lineWidth, DefaultLineWidth), DashArray(t.lineType)), ArrowOf(a, b, t))
  }

  /** One link of the scene; `LinkComposition` states what it draws. */
  function ComposeLink(ts: seq<Template>, nodes: seq<Node>, l: Link): (r: Option<Instr>)
    ensures r.Some? ==> r.value.LinkGroup?
  {
    var from := FindNode(nodes, l.from);
    var to := FindNode(nodes, l.to);
    var t := GetLinkTemplate(ts, l.templateId);
    if from.None? || to.None? || t.None? then None
    else
      Some(LinkGroupOf(from.value.Pos(), to.value.Pos(), t.value))
  }

  /**
   * A link is skipped when either endpoint or its link template is missing;
   * otherwise it is a line between the first nodes carrying the endpoint
   * ids, in the template's width (3 when absent or 0) and dash pattern, with
   * an arrowhead at its end exactly when the template asks for one.
   */
  lemma LinkComposition(ts: seq<Template>, nodes: seq<Node>, l: Link)
    ensures var r := ComposeLink(ts, nodes, l);
      r.None? <==>
        || (forall i :: 0 <= i < |nodes| ==> nodes[i].id != l.from)
        || (forall i :: 0 <= i < |nodes| ==> nodes[i].id != l.to)
        || (forall k :: 0 <= k < |ts| ==> !(ts[k].LinkT? && ts[k].id == l.templateId))
    ensures var r := ComposeLink(ts, nodes, l);
      r.Some? ==> r.value.stroke.color == LineColor && r.value.stroke.width != 0.0
    ensures var r := ComposeLink(ts, nodes, l);
      forall i, j :: FirstNode(nodes, l.from, i) && FirstNode(nodes, l.to, j) && r.Some? ==>
        r.value.from == nodes[i].Pos() && r.value.to == nodes[j].Pos()
    ensures var r := ComposeLink(ts, nodes, l);
      forall k :: FirstMatch(ts, l.templateId, LinkKind, k) && r.Some? ==>
        && r.value.stroke.width == OrDefault(ts[k].lineWidth, DefaultLineWidth)
        && r.value.stroke.dashArray == DashArray(ts[k].lineType)
        && (r.value.arrow.Some? <==> HasArrow(ts[k]))
        && (r.value.arrow.Some? ==> r.value.arrow.value.width == OrDefault(ts[k].arrowWidth, DefaultArrowSize))
    ensures var r := ComposeLink(ts, nodes, l);
      r.Some? && r.value.arrow.Some? ==> r.value.arrow.value.from == r.value.from && r.value.arrow.value.to == r.value.to
  {
  }

  /** The template's arrow height has no effect on what a link draws. */
  lemma ArrowHeightUnused(a: Point, b: Point, t: Template, h: Option<real>)
    requires t.LinkT?
    ensures LinkGroupOf(a, b, t.(arrowHeight := h)) == LinkGroupOf(a, b, t)
  {
  }

  /**
   * `links.map(...)`: one group per drawable link, in input order; when
   * every link resolves, the k-th group is the k-th link drawn.
   */
  function ComposeLinks(ts: seq<Template>, nodes: seq<Node>, links: seq<Link>): (r: seq<Instr>)
    ensures |r| <= |links|
    ensures forall k :: 0 <= k < |r| ==> r[k].LinkGroup?
    ensures (forall i :: 0 <= i < |links| ==> ComposeLink(ts, nodes, links[i]).Some?) ==>
      forall k :: 0 <= k < |r| ==> Some(r[k]) == ComposeLink(ts, nodes, links[k])
  {
    if links == [] then []
    else
      var r := Present(ComposeLink(ts, nodes, links[0])) + ComposeLinks(ts, nodes, links[1..]);
      assert forall i :: 1 <= i < |links| ==> links[i] == links[1..][i - 1];
      r
  }

  /** A single link draws exactly its own group, or nothing when it does not resolve. */
  lemma ComposeLinksSingle(ts: seq<Template>, nodes: seq<Node>, l: Link)
    ensures ComposeLinks(ts, nodes, [l]) == Present(ComposeLink(ts, nodes, l))
  {
    assert [l][1..] == [];
  }

  /** Composing links distributes over concatenation of the link list: input order is kept. */
  lemma {:induction false} ComposeLinksAppend(ts: seq<Template>, nodes: seq<Node>, a: seq<Link>, b: seq<Link>)
    ensures ComposeLinks(ts, nodes, a + b) == ComposeLinks(ts, nodes, a) + ComposeLinks(ts, nodes, b)
  {
    if a == [] {
      assert a + b == b;
    } else {
      assert (a + b)[1..] == a[1..] + b;
      ComposeLinksAppend(ts, nodes, a[1..], b);
    }
  }

  /** A link that cannot be drawn leaves no trace: the scene is as if it were not in the list. */
  lemma DanglingLinkSkipped(ts: seq<Template>, nodes: seq<Node>, a: seq<Link>, l: Link, b: seq<Link>)
    requires ComposeLink(ts, nodes, l).None?
    ensures ComposeLinks(ts, nodes, a + [l] + b) == ComposeLinks(ts, nodes, a + b)
  {
    ComposeLinksSingle(ts, nodes, l);
    ComposeLinksAppend(ts, nodes, a + [l], b);
    ComposeLinksAppend(ts, nodes, a, [l]);
    ComposeLinksAppend(ts, nodes, a, b);
  }

  /** Every link is drawn exactly when each of them resolves. */
  lemma {:induction false} AllLinksDrawn(ts: seq<Template>, nodes: seq<Node>, links: seq<Link>)
    ensures |ComposeLinks(ts, nodes, links)| == |links| <==> forall i :: 0 <= i < |links| ==> ComposeLink(ts, nodes, links[i]).Some?
  {
    if links != [] {
      var rest := links[1..];
      AllLinksDrawn(ts, nodes, rest);
      var head := ComposeLink(ts, nodes, links[0]);
      assert |ComposeLinks(ts, nodes, links)| == |Present(head)| + |ComposeLinks(ts, nodes, rest)|;
      assert forall i :: 1 <= i < |links| ==> links[i] == rest[i - 1];
      if head.None? {
        assert |ComposeLinks(ts, nodes, links)| < |links|;
      }
    }
  }

  // ---------------------------------------------------------------- nodes

  /** The object types a node template can draw. */
  predicate IsShapeKind(kind: string) {
    kind == "circle" || kind == "rect" || kind == "triangle"
  }

  function Min(a: real, b: real): real { if a <= b then a else b }
  function Max(a: real, b: real): real { if a <= b then b else a }

  function MinX(ps: seq<Point>): real requires |ps| > 0 { if |ps| == 1 then ps[0].x else Min(ps[0].x, MinX(ps[1..])) }
  function MaxX(ps: seq<Point>): real requires |ps| > 0 { if |ps| == 1 then ps[0].x else Max(ps[0].x, MaxX(ps[1..])) }
  function MinY(ps: seq<Point>): real requires |ps| > 0 { if |ps| == 1 then ps[0].y else Min(ps[0].y, MinY(ps[1..])) }
  function MaxY(ps: seq<Point>): real requires |ps| > 0 { if |ps| == 1 then ps[0].y else Max(ps[0].y, MaxY(ps[1..])) }

  /** The extremes of a three-point polygon. */
  lemma TriangleBox(ps: seq<Point>)
    requires |ps| == 3
    ensures MinX(ps) == Min(ps[0].x, Min(ps[1].x, ps[2].x)) && MaxX(ps) == Max(ps[0].x, Max(ps[1].x, ps[2].x))
    ensures MinY(ps) == Min(ps[0].y, Min(ps[1].y, ps[2].y)) && MaxY(ps) == Max(ps[0].y, Max(ps[1].y, ps[2].y))
  {
    var t := ps[1..];
    var u := t[1..];
    assert |t| == 2 && t[0] == ps[1] && |u| == 1 && u[0] == ps[2];
    assert MinX(t) == Min(ps[1].x, MinX(u)) && MaxX(t) == Max(ps[1].x, MaxX(u));
    assert MinY(t) == Min(ps[1].y, MinY(u)) && MaxY(t) == Max(ps[1].y, MaxY(u));
  }

  /** The centre of a shape's bounding box. */
  function BoxCenter(s: Shape): Point {
    match s
    case Circle(c, _, _) => c
    case Rect(corner, w, h, _) => Point(corner.x + w / 2.0, corner.y + h / 2.0)
    case Polygon(ps, _) =>
      if ps == [] then Point(0.0, 0.0)
      else Point((MinX(ps) + MaxX(ps)) / 2.0, (MinY(ps) + MaxY(ps)) / 2.0)
  }

  /**
   * One template object drawn at a node's point `at`: every known kind is
   * centred on `at` with the object's own paint; sizes fall back to
   * radius 15, box 30 by 30 and triangle half-size 15 when absent or 0;
   * the template's `cx`/`cy` play no part; an unknown kind draws nothing.
   */
  function ShapeOf(obj: NodeObject, at: Point): (r: Option<Shape>)
    ensures r.Some? <==> IsShapeKind(obj.kind)
    ensures r.Some? ==> r.value.paint == obj.paint && BoxCenter(r.value) == at
    ensures obj.kind == "circle" ==> r == Some(Circle(at, OrDefault(obj.r, DefaultRadius), obj.paint))
    ensures obj.kind == "rect" ==>
      && r.Some? && r.value.Rect?
      && r.value.width == OrDefault(obj.width, DefaultRectSide)
      && r.value.height == OrDefault(obj.height, DefaultRectSide)
    ensures obj.kind == "triangle" ==>
      && r.Some? && r.value.Polygon? && |r.value.points| == 3
      && var s := OrDefault(obj.r, DefaultRadius);
         && r.value.points[0] == Point(at.x, at.y - s)
         && r.value.points[1].y == r.value.points[2].y == at.y + s
         && r.value.points[2].x - r.value.points[1].x == 2.0 * s
  {
    if obj.kind == "circle" then
      Some(Circle(at, OrDefault(obj.r, DefaultRadius), obj.paint))
    else if obj.kind == "rect" then
      var w := OrDefault(obj.width, DefaultRectSide);
      var h := OrDefault(obj.height, DefaultRectSide);
      Some(Rect(Point(at.x - w / 2.0, at.y - h / 2.0), w, h, obj.paint))
    else if obj.kind == "triangle" then
      var s := OrDefault(obj.r, DefaultRadius);
      var ps := [Point(at.x, at.y - s), Point(at.x - s, at.y + s), Point(at.x + s, at.y + s)];
      TriangleBox(ps);
      Some(Polygon(ps, obj.paint))
    else None
  }

  /**
   * `template.objects.map(...)`: one shape per known object, in template
   * order, all centred on `at`; when every object's type is known, the k-th
   * shape is the k-th object drawn.
   */
  function ShapesOf(objs: seq<NodeObject>, at: Point): (r: seq<Shape>)
    ensures |r| <= |objs|
    ensures |r| == |objs| <==> forall i :: 0 <= i < |objs| ==> IsShapeKind(objs[i].kind)
    ensures forall k :: 0 <= k < |r| ==> BoxCenter(r[k]) == at
    ensures (forall i :: 0 <= i < |objs| ==> IsShapeKind(objs[i].kind)) ==>
      forall k :: 0 <= k < |r| ==> Some(r[k]) == ShapeOf(objs[k], at)
  {
    if objs == [] then []
    else
      var r := Present(ShapeOf(objs[0], at)) + ShapesOf(objs[1..], at);
      assert forall i :: 1 <= i < |objs| ==> objs[i] == objs[1..][i - 1];
      r
  }

  /** Drawing a concatenation of objects draws each part in turn: template order is kept. */
  lemma {:induction false} ShapesOfAppend(a: seq<NodeObject>, b: seq<NodeObject>, at: Point)
    ensures ShapesOf(a + b, at) == ShapesOf(a, at) + ShapesOf(b, at)
  {
    if a == [] {
      assert a + b == b;
    } else {
      assert (a + b)[1..] == a[1..] + b;
      ShapesOfAppend(a[1..], b, at);
    }
  }

  /** A single object draws exactly its own shape, or nothing when its type is unknown. */
  lemma ShapesOfSingle(o: NodeObject, at: Point)
    ensures IsShapeKind(o.kind) ==> ShapesOf([o], at) == [ShapeOf(o, at).value]
    ensures !IsShapeKind(o.kind) ==> ShapesOf([o], at) == []
  {
    assert [o][1..] == [];
  }

  /** An object of an unknown type leaves no trace: the shapes are as if it were not in the template. */
  lemma UnknownObjectSkipped(a: seq<NodeObject>, o: NodeObject, b: seq<NodeObject>, at: Point)
    requires !IsShapeKind(o.kind)
    ensures ShapesOf(a + [o] + b, at) == ShapesOf(a + b, at)
  {
    ShapesOfAppend(a + [o], b, at);
    ShapesOfAppend(a, [o], at);
    ShapesOfSingle(o, at);
    ShapesOfAppend(a, b, at);
  }

  /** One node of the scene; `NodeComposition` states what it draws. */
  function ComposeNode(ts: seq<Template>, n: Node): (r: Option<Instr>)
    ensures r.Some? ==> r.value.NodeGroup?
  {
    var t := GetNodeTemplate(ts, n.templateId);
    if t.None? then None
    else
      var text := Label(LabelPosition(n.Pos(), n.labelDirection, None), NodeLabelFontSize,
                        TextAnchor(n.labelDirection), NodeLabelFill, Some(NodeLabelWeight), n.labelText);
      Some(NodeGroup(ShapesOf(t.value.objects, n.Pos()), text))
  }

  /**
   * A node is skipped when its node template is missing; otherwise it is
   * the first such template's shapes, all centred on the node, followed by
   * one label at the default offset in the node's direction, aligned by
   * that direction.
   */
  lemma NodeComposition(ts: seq<Template>, n: Node)
    ensures var r := ComposeNode(ts, n);
      r.None? <==> forall k :: 0 <= k < |ts| ==> !(ts[k].NodeT? && ts[k].id == n.templateId)
    ensures var r := ComposeNode(ts, n);
      forall k :: FirstMatch(ts, n.templateId, NodeKind, k) && r.Some? ==>
        r.value.shapes == ShapesOf(ts[k].objects, n.Pos())
    ensures var r := ComposeNode(ts, n);
      r.Some? ==> forall k :: 0 <= k < |r.value.shapes| ==> BoxCenter(r.value.shapes[k]) == n.Pos()
    ensures var r := ComposeNode(ts, n);
      r.Some? ==>
        && r.value.text.at == LabelPosition(n.Pos(), n.labelDirection, None)
        && r.value.text.anchor == TextAnchor(n.labelDirection)
        && r.value.text.value == n.labelText
        && r.value.text.fontSize == NodeLabelFontSize
        && r.value.text.fill == NodeLabelFill
        && r.value.text.fontWeight == Some(NodeLabelWeight)
  {
  }

  /**
   * `nodes.map(...)`: one group per node with a template, in input order;
   * when every node has a template, the k-th group is the k-th node drawn.
   */
  function ComposeNodes(ts: seq<Template>, nodes: seq<Node>): (r: seq<Instr>)
    ensures |r| <= |nodes|
    ensures forall k :: 0 <= k < |r| ==> r[k].NodeGroup?
    ensures (forall i :: 0 <= i < |nodes| ==> ComposeNode(ts, nodes[i]).Some?) ==>
      forall k :: 0 <= k < |r| ==> Some(r[k]) == ComposeNode(ts, nodes[k])
  {
    if nodes == [] then []
    else
      var r := Present(ComposeNode(ts, nodes[0])) + ComposeNodes(ts, nodes[1..]);
      assert forall i :: 1 <= i < |nodes| ==> nodes[i] == nodes[1..][i - 1];
      r
  }

  /** A single node draws exactly its own group, or nothing when it has no template. */
  lemma ComposeNodesSingle(ts: seq<Template>, n: Node)
    ensures ComposeNodes(ts, [n]) == Present(ComposeNode(ts, n))
  {
    assert [n][1..] == [];
  }

  /** Composing nodes distributes over concatenation of the node list: input order is kept. */
  lemma {:induction false} ComposeNodesAppend(ts: seq<Template>, a: seq<Node>, b: seq<Node>)
    ensures ComposeNodes(ts, a + b) == ComposeNodes(ts, a) + ComposeNodes(ts, b)
  {
    if a == [] {
      assert a + b == b;
    } else {
      assert (a + b)[1..] == a[1..] + b;
      ComposeNodesAppend(ts, a[1..], b);
    }
  }

  /** A node without a template leaves no trace: the scene is as if it were not in the list. */
  lemma UntemplatedNodeSkipped(ts: seq<Template>, a: seq<Node>, n: Node, b: seq<Node>)
    requires ComposeNode(ts, n).None?
    ensures ComposeNodes(ts, a + [n] + b) == ComposeNodes(ts, a + b)
  {
    ComposeNodesSingle(ts, n);
    ComposeNodesAppend(ts, a + [n], b);
    ComposeNodesAppend(ts, a, [n]);
    ComposeNodesAppend(ts, a, b);
  }

  // ---------------------------------------------------------------- texts

  /** One free text: offset 0, so it stays at its own point, aligned by its direction, in its own style. */
  function ComposeText(t: TextItem): (r: Instr)
    ensures r.FreeText? && r.text.at == Point(t.x, t.y)
    ensures r.text.anchor == TextAnchor(t.textDirection)
    ensures r.text == Label(r.text.at, t.fontSize, r.text.anchor, t.fill, None, t.value)
  {
    ZeroOffsetKeepsPoint(Point(t.x, t.y), t.textDirection);
    FreeText(Label(LabelPosition(Point(t.x, t.y), t.textDirection, Some(0.0)), t.fontSize,
                   TextAnchor(t.textDirection), t.fill, None, t.value))
  }

  /** `texts?.map(...)`: exactly one text per entry, in input order. */
  function ComposeTexts(texts: seq<TextItem>): (r: seq<Instr>)
    ensures |r| == |texts|
    ensures forall k :: 0 <= k < |r| ==> r[k] == ComposeText(texts[k])
  {
    if texts == [] then []
    else
      var r := [ComposeText(texts[0])] + ComposeTexts(texts[1..]);
      assert forall k :: 1 <= k < |texts| ==> texts[k] == texts[1..][k - 1];
      r
  }

  // ---------------------------------------------------------------- scene

  /** Position of an instruction's section in the scene: links, nodes, texts. */
  function Section(i: Instr): nat {
    match i
    case LinkGroup(_, _, _, _) => 0
    case NodeGroup(_, _) => 1
    case FreeText(_) => 2
  }

  /** The instructions of one section, in scene order. */
  function InSection(r: seq<Instr>, s: nat): (q: seq<Instr>)
    ensures |q| <= |r|
    ensures forall k :: 0 <= k < |q| ==> Section(q[k]) == s
  {
    if r == [] then []
    else (if Section(r[0]) == s then [r[0]] else []) + InSection(r[1..], s)
  }

  lemma {:induction false} InSectionAppend(a: seq<Instr>, b: seq<Instr>, s: nat)
    ensures InSection(a + b, s) == InSection(a, s) + InSection(b, s)
  {
    if a == [] {
      assert a + b == b;
    } else {
      assert (a + b)[1..] == a[1..] + b;
      InSectionAppend(a[1..], b, s);
    }
  }

  /** Filtering a block that lies wholly in section `s`: for `s` it is the block, for any other section empty. */
  lemma {:induction false} InSectionUniform(a: seq<Instr>, s: nat, t: nat)
    requires forall k :: 0 <= k < |a| ==> Section(a[k]) == s
    ensures InSection(a, t) == if t == s then a else []
  {
    if a != [] {
      InSectionUniform(a[1..], s, t);
    }
  }

  /** The whole scene: all drawable links, then all templated nodes, then every text (none when `texts` is absent). */
  function Compose(ts: seq<Template>, nodes: seq<Node>, links: seq<Link>, texts: Option<seq<TextItem>>): (r: seq<Instr>)
    ensures forall i, j :: 0 <= i <= j < |r| ==> Section(r[i]) <= Section(r[j])
  {
    var ls := ComposeLinks(ts, nodes, links);
    var ns := ComposeNodes(ts, nodes);
    var xs := ComposeTexts(texts.GetOr([]));
    assert forall k :: 0 <= k < |xs| ==> xs[k].FreeText?;
    ls + ns + xs
  }

  /** Three blocks of sections 0, 1 and 2, concatenated: filtering by section `t` recovers block `t`. */
  lemma SectionsOfBlocks(ls: seq<Instr>, ns: seq<Instr>, xs: seq<Instr>, t: nat)
    requires forall k :: 0 <= k < |ls| ==> Section(ls[k]) == 0
    requires forall k :: 0 <= k < |ns| ==> Section(ns[k]) == 1
    requires forall k :: 0 <= k < |xs| ==> Section(xs[k]) == 2
    ensures InSection(ls + ns + xs, t) == if t == 0 then ls else if t == 1 then ns else if t == 2 then xs else []
  {
    InSectionUniform(ls, 0, t);
    InSectionUniform(ns, 1, t);
    InSectionUniform(xs, 2, t);
    InSectionAppend(ls + ns, xs, t);
    InSectionAppend(ls, ns, t);
  }

  /**
   * Each section of the scene is exactly what its input list composes to,
   * so the scene has at most |links| link groups, at most |nodes| node
   * groups and exactly |texts| texts.
   */
  lemma ComposeSections(ts: seq<Template>, nodes: seq<Node>, links: seq<Link>, texts: Option<seq<TextItem>>)
    ensures var r := Compose(ts, nodes, links, texts);
      && InSection(r, 0) == ComposeLinks(ts, nodes, links) && |InSection(r, 0)| <= |links|
      && InSection(r, 1) == ComposeNodes(ts, nodes) && |InSection(r, 1)| <= |nodes|
      && InSection(r, 2) == ComposeTexts(texts.GetOr([])) && |InSection(r, 2)| == |texts.GetOr([])|
  {
    var xs := ComposeTexts(texts.GetOr([]));
    assert forall k :: 0 <= k < |xs| ==> xs[k].FreeText?;
    var ls, ns := ComposeLinks(ts, nodes, links), ComposeNodes(ts, nodes);
    SectionsOfBlocks(ls, ns, xs, 0);
    SectionsOfBlocks(ls, ns, xs, 1);
    SectionsOfBlocks(ls, ns, xs, 2);
  }
}
