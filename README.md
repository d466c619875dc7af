# Diagram scene composer

This project models the rendering core of the irrigation-network diagram viewer. That core is the `Diagram` component. It takes an ordered list of templates (node templates and link templates), a list of positioned nodes, a list of directed links and an optional list of free texts. From them it produces, deterministically, the SVG draw instructions of the scene:

- one group per drawable link: a line, plus an arrowhead when the link template asks for one;
- then one group per node whose template exists: its template's shapes followed by a label;
- then one text element per free text.

Every operation is a pure Dafny function, as in the source, where each operation is a lambda or a `.map`. The model exists to be verified: its properties are stated as contracts and lemmas and proved by the Dafny verifier.

Modules:

- `Wrappers`: `Option`, for optional (`undefined`) fields.
- `Substrings`: `String.prototype.includes`, on which the text-anchor rule rests.
- `Schema`: the input snapshot: `Point`, `Paint`, `NodeObject`, `Template` (`NodeT` / `LinkT`, the `type: "node" | "link"` tag), `Node`, `Link` and `TextItem`. It also holds `OrDefault`, which is JavaScript's `x || d` on an optional number: both an absent value and 0 give the default.
- `Registry`: `getNodeTemplate` and `getLinkTemplate`, plus the endpoint lookup `nodes.find`. Each returns the first match in list order.
- `Geometry`: `getLabelPosition` and `getTextAnchor`. Directions stay strings, so the `default:` fallback and the substring rule both mean something. `Dx` and `Dy` read a unit shift off the direction's name ("left"/"right", "top"/"bottom"). They are independent of the `switch` in `getLabelPosition`, and `LabelShift` proves the label position against them. `Dx` uses the same substring tests as `getTextAnchor`, so the anchor is tied to the geometry by `AnchorFacesAwayFromPoint`, which compares the anchor with where `LabelPosition` actually puts the label.
- `Scene`: link, node and text composition, and `Compose`, which concatenates links, then nodes, then texts.
- `Fixture`: the sample diagram of `src/data.ts`, composed to its exact scene.

Notes on the code:

- Template objects are drawn with their own `fill`, `stroke` and `strokeWidth`, passed through unchanged (`Diagram.tsx` lines 300-305).
- A label sits exactly `offset` away from its point on each axis its direction names. A diagonal moves it by the same offset on both axes.
- The template kind tag is `"link"` (line 118). The template file `src/template.ts` tags its edge templates `"edge"`, and this component would never find those. That file is not part of this model.
- The component's link list is called `links`, as `Diagram.tsx` declares it. `src/App.tsx` passes `edges` and flags the component does not declare.

In `renderArrow`, the template's `arrowHeight` is read but never used by the polygon. So the model's `Arrow` instruction omits it, and `Scene.ArrowHeightUnused` states that it has no effect.

## Model

| member | source | states |
|---|---|---|
| `Schema.OrDefault` | src/components/Diagram.tsx:256 | `v \|\| d` on an optional number. A present non-zero value is kept; an absent value or 0 gives `d`. The result is non-zero whenever `d` is. |
| `Registry.FindTemplate` | src/components/Diagram.tsx:110-120 | `templates.find` on id and kind. It returns nothing exactly when no template matches both. Otherwise it returns the template at the first matching index, and that template is in the list and matches. |
| `Registry.GetNodeTemplate` | src/components/Diagram.tsx:110-114 | The result is always a node template with the requested id, taken from the list, and it is the first such template in list order. It is absent exactly when no node template has that id. |
| `Registry.GetLinkTemplate` | src/components/Diagram.tsx:116-120 | The result is always a link template with the requested id, taken from the list, and it is the first such template in list order. It is absent exactly when no link template has that id. |
| `Registry.FindTemplateAppend` | src/components/Diagram.tsx:110-120 | When searching a concatenated list, a match in the first part wins over any match in the second. |
| `Registry.OtherKindIgnored` | src/components/Diagram.tsx:111-118 | Inserting a template of the other kind anywhere in the list does not change a lookup. So a node template never shadows a link template with the same id, and the reverse holds too. |
| `Registry.FindNode` | src/components/Diagram.tsx:249-250 | `nodes.find(n => n.id === id)`. It returns nothing exactly when no node has the id. Otherwise it returns the first node with that id. |
| `Substrings.Contains` | src/components/Diagram.tsx:151-152 | `includes`: the empty string occurs in every string, a pattern longer than the string never occurs, and a pattern as long as the string occurs only when it equals the string. |
| `Geometry.CompassShift` | src/components/Diagram.tsx:11-19 | Each of the eight compass direction names has the unit shift its words spell out. For example, "top" is (0, -1) and "bottom-left" is (-1, +1). |
| `Geometry.LabelPosition` | src/components/Diagram.tsx:122-148 | Any direction that is not one of the eight behaves like "top". The offset defaults to 25 only when omitted, so an explicit 0 stays 0. |
| `Geometry.LabelShift` | src/components/Diagram.tsx:128-144 | A compass direction moves the point by exactly the offset along each axis its name mentions. The other axis is unchanged. |
| `Geometry.ZeroOffsetKeepsPoint` | src/components/Diagram.tsx:364-369 | With offset 0, every direction, known or not, returns the input point unchanged. |
| `Geometry.TextAnchor` | src/components/Diagram.tsx:150-154 | A direction containing both "left" and "right" is end-anchored: "left" wins. The three anchors split the directions by the sign of the name's horizontal shift (`Dx` shares these substring tests; the geometric meaning is `AnchorFacesAwayFromPoint`). |
| `Geometry.AnchorFacesAwayFromPoint` | src/components/Diagram.tsx:122-154 | Take a compass direction and a positive offset. A label placed left of its point is end-anchored, one placed right is start-anchored, and one placed straight above or below is centred, in both directions. |
| `Geometry.CompassAnchors` | src/components/Diagram.tsx:150-154 | top-left, bottom-left and left give `end`. top-right, bottom-right and right give `start`. top and bottom give `middle`. |
| `Scene.DashArray` | src/components/Diagram.tsx:262-267 | "dashed" gives "10,5" and "dotted" gives "2,3". Solid, an absent line type or any other value gives no dash array, in both directions. |
| `Scene.HasArrow` | src/components/Diagram.tsx:163 | The falsy `arrowType` values (absent, the empty string) and "none" draw no arrow; every other non-empty value does. |
| `Scene.ArrowOf` | src/components/Diagram.tsx:163-166 | An arrow is emitted if and only if `arrowType` is present, non-empty and not "none". It points along the line and its width is `arrowWidth \|\| 10`, which is never 0. |
| `Scene.LinkGroupOf` | src/components/Diagram.tsx:256-279 | A link group drawn with a template runs from the given start point to the given end point. |
| `Scene.ComposeLink` | src/components/Diagram.tsx:248-282 | One link of the scene: when it is drawn at all it is a link group. What the group holds is stated by `LinkComposition`. |
| `Scene.LinkComposition` | src/components/Diagram.tsx:248-282 | A link is skipped if and only if its `from` node, its `to` node or its link template is missing. Otherwise it is one line between the first nodes with those ids, stroked "#003366". Its width is `lineWidth \|\| 3`, which is never 0, and its dash pattern follows `lineType`. It has an arrowhead at its end exactly when the template asks for one, of width `arrowWidth \|\| 10`. |
| `Scene.ArrowHeightUnused` | src/components/Diagram.tsx:165-183 | Documents that the template's `arrowHeight`, read at line 166, has no effect on what a link draws. It holds by construction, since `LinkGroupOf` never reads the field. |
| `Scene.ComposeLinks` | src/components/Diagram.tsx:248-282 | The links part of the scene has at most one instruction per link, and every instruction is a link group. When every link resolves, the k-th group is exactly what `ComposeLink` draws for the k-th link. |
| `Scene.ComposeLinksSingle` | src/components/Diagram.tsx:248-282 | A one-link list draws exactly that link's own group, or nothing when the link does not resolve. With `ComposeLinksAppend` this fixes every surviving group and its place in input order. |
| `Scene.ComposeLinksAppend` | src/components/Diagram.tsx:248 | Composing links distributes over concatenation of the link list, so input order is kept. |
| `Scene.DanglingLinkSkipped` | src/components/Diagram.tsx:253-254 | A link that cannot be drawn leaves no trace: the scene is the same as without it. |
| `Scene.AllLinksDrawn` | src/components/Diagram.tsx:248-254 | The links part has one instruction per link if and only if every link resolves. |
| `Scene.ShapeOf` | src/components/Diagram.tsx:299-344 | Circle, rect and triangle objects are drawn, with the object's own paint. Any other type draws nothing. Each shape's bounding box is centred on the node, whatever `cx`/`cy` say. The circle radius is `r\|\|15` and the rect is `width\|\|30` by `height\|\|30`. The triangle has its apex at (x, y-s), its base at y+s and a base 2s wide, where s = `r\|\|15`. |
| `Scene.ShapesOf` | src/components/Diagram.tsx:299-345 | A node has at most one shape per template object, and exactly one per object when every object's type is known. In that case the k-th shape is the k-th object drawn by `ShapeOf`. Every shape is centred on the node. |
| `Scene.ShapesOfAppend` | src/components/Diagram.tsx:299 | Drawing a concatenation of objects draws the first part, then the second, so template order is kept. |
| `Scene.ShapesOfSingle` | src/components/Diagram.tsx:299-345 | A single object draws exactly its own `ShapeOf` shape, or nothing when its type is unknown. |
| `Scene.UnknownObjectSkipped` | src/components/Diagram.tsx:344 | An object of unknown type (`return null`) leaves no trace: the shapes are the same as without it. |
| `Scene.ComposeNode` | src/components/Diagram.tsx:285-360 | One node of the scene: when it is drawn at all it is a node group. What the group holds is stated by `NodeComposition`. |
| `Scene.NodeComposition` | src/components/Diagram.tsx:285-360 | A node is skipped if and only if no node template has its template id. Otherwise its shapes are those of the first such template, all centred on the node. They are followed by one label with the node's text, at the default offset in the node's direction, aligned by that direction, in font size 12, fill "#000" and weight 500. |
| `Scene.ComposeNodes` | src/components/Diagram.tsx:285-360 | The nodes part has at most one group per node, and every group is a node group. When every node has a template, the k-th group is exactly what `ComposeNode` draws for the k-th node. |
| `Scene.ComposeNodesSingle` | src/components/Diagram.tsx:285-360 | A one-node list draws exactly that node's own group, or nothing when the node has no template. With `ComposeNodesAppend` this fixes every surviving group and its place in input order. |
| `Scene.ComposeNodesAppend` | src/components/Diagram.tsx:285 | Composing nodes distributes over concatenation of the node list, so input order is kept. |
| `Scene.UntemplatedNodeSkipped` | src/components/Diagram.tsx:286-287 | A node without a template leaves no trace: the scene is the same as without it. |
| `Scene.ComposeText` | src/components/Diagram.tsx:363-383 | A free text stays at its own point, because its offset is 0. It is anchored by its direction and keeps its own font size, fill and value, with no font weight. |
| `Scene.ComposeTexts` | src/components/Diagram.tsx:363-384 | There is exactly one text instruction per entry, in input order. |
| `Scene.Compose` | src/components/Diagram.tsx:247-384 | The scene is ordered: every link group comes before every node group, and every node group comes before every text. |
| `Scene.ComposeSections` | src/components/Diagram.tsx:247-384 | Each section of the scene is exactly what its input list composes to. So there are at most \|links\| link groups, at most \|nodes\| node groups, and exactly \|texts\| texts (none when `texts` is absent). |
| `Fixture.SampleLinkDrawn` | src/data.ts:81 | B.T.0 to B.T.1 is drawn solid, 3 wide, with an arrow of width 10. It is drawn although B.T.1 itself is not. |
| `Fixture.SampleLinkSkipped` | src/data.ts:82 | B.T.1 to B.T.2 names the missing link template L.T.1, so it is skipped. |
| `Fixture.SampleNodeDrawn` | src/data.ts:50-58 | B.T.0 is a radius-50 circle at (100, 100), labelled at (100, 125) and centred. |
| `Fixture.SampleNodesSkipped` | src/data.ts:59-76 | B.T.1 and B.T.2 name missing node templates, so they are skipped. |
| `Fixture.SampleLinks` | src/data.ts:80-83 | The two sample links compose to exactly the one drawn link group. |
| `Fixture.SampleNodes` | src/data.ts:49-78 | The three sample nodes compose to exactly the one drawn node group. |
| `Fixture.SampleScene` | src/data.ts:49-83 | The sample diagram composes to exactly one link group followed by one node group. |

## Left out

- Arrowhead polygon coordinates (`Math.atan2`, `cos`, `sin`, `PI` on floating point). The `Arrow` instruction carries the inputs of that computation instead: the line's ends and the arrow width.
- Floating point: coordinates are exact reals, so rounding in `width / 2` and in the additions is not modelled. `NaN`, which `\|\|` also treats as falsy, has no counterpart.
- The `<defs>` dashed/dotted patterns and the pan/zoom wrapper (`TransformWrapper`, `TransformComponent`). They are constant markup and library configuration.
- React `key` attributes (`link-i`, `node-id`, `obj-i`, `text-i`). They identify elements for React and are not drawn.
- The free-form `data` of nodes and links. The component never reads it.
- Template field descriptors are kept in `NodeT` but are not used, as in the component.
- The map overlay, the dialog wrapper, the page shell and the type declarations. They hold no scene-composition logic.
- Determinism needs no lemma: every operation is a Dafny function of its inputs.
