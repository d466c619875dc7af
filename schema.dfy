/**
 * The input snapshot of a diagram: templates, nodes, links and free texts,
 * as the diagram component receives them. Coordinates are JavaScript numbers,
 * modelled as exact reals.
 */
module Schema {
  import opened Wrappers

  datatype Point = Point(x: real, y: real)

  /** Value of a template field descriptor: `string | number | boolean`. */
  datatype FieldValue = Str(s: string) | Num(n: real) | Bool(b: bool)

  /** A field descriptor of a node template; `kind` is the declared field type. */
  datatype Field = Field(id: string, key: string, kind: string, value: FieldValue)

  /** Paint shared by every drawable primitive. */
  datatype Paint = Paint(fill: string, stroke: string, strokeWidth: real)

  /**
   * One drawable primitive of a node template. `kind` is the object's `type`
   * ("circle", "rect", "triangle"); the numeric fields are optional.
   */
  datatype NodeObject = NodeObject(
    kind: string,
    paint: Paint,
    cx: Option<real>,
    cy: Option<real>,
    r: Option<real>,
    width: Option<real>,
    height: Option<real>)

  /** The template kind tag, `type: "node"` or `type: "link"`. */
  datatype Kind = NodeKind | LinkKind

  datatype Template =
    | NodeT(id: string, name: string, fields: seq<Field>, objects: seq<NodeObject>)
    | LinkT(
        id: string,
        name: string,
        arrowType: Option<string>,
        arrowWidth: Option<real>,
        arrowHeight: Option<real>,
        lineType: Option<string>,
        lineWidth: Option<real>,
        animationFlow: Option<bool>)
  {
    function Kind(): Kind {
      if NodeT? then NodeKind else LinkKind
    }
  }

  datatype Node = Node(id: string, labelText: string, labelDirection: string, x: real, y: real, templateId: string) {
    function Pos(): Point {
      Point(x, y)
    }
  }

  datatype Link = Link(from: string, to: string, templateId: string)

  /** A free text annotation. */
  datatype TextItem = TextItem(x: real, y: real, fontSize: real, textDirection: string, fill: string, value: string)

  /**
   * JavaScript's `v || d` on an optional number: an absent value and 0 both
   * give the default `d`; any other value is kept.
   */
  function OrDefault(v: Option<real>, d: real): (r: real)
    ensures v.Some? && v.value != 0.0 ==> r == v.value
    ensures v.None? || v.value == 0.0 ==> r == d
    ensures d != 0.0 ==> r != 0.0
  {
    if v.Some? && v.value != 0.0 then v.value else d
  }
}
